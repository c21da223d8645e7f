/** Crash safety of compaction, over runs in which chunks arrive between its file operations. */
module CompactionSafety {
  import opened Seqs
  import opened Records
  import opened Directories
  import opened Compaction

  /** `base` is the partition as it should read: its chunks before the merge plus
      everything that arrived since. `pc` counts the operations done. */
  datatype Merging = Merging(dir: Directory, base: Directory, pc: nat)

  datatype Act = Next | Arrive(name: string, file: File)

  /** What a merge may assume of the directory it starts in. */
  ghost predicate Planned(base: Directory, m: Plan) {
    && Clean(base)
    && Distinct(m.files)
    && (forall f | f in m.files :: f in base && IsParquet(f))
    && m.part !in base && HasSuffix(m.part, PART_SUFFIX)
    && m.final !in base && IsParquet(m.final)
    && m.merged.rows == RowsOf(base, m.files)
  }

  /** A fresh chunk: published by one rename, under a name in use nowhere. */
  ghost predicate Fresh(s: Merging, m: Plan, name: string) {
    IsParquet(name) && name !in s.base && name != m.final
  }

  ghost predicate Enabled(s: Merging, m: Plan, act: Act) {
    match act
    case Next => s.pc < |Ops(m)|
    case Arrive(name, _) => Fresh(s, m, name)
  }

  ghost function Step(s: Merging, m: Plan, act: Act): Merging
    requires Enabled(s, m, act)
  {
    match act
    case Next => s.(dir := Apply(s.dir, Ops(m)[s.pc]), pc := s.pc + 1)
    case Arrive(name, file) => s.(dir := s.dir[name := file], base := s.base[name := file])
  }

  ghost predicate Legal(s: Merging, m: Plan, acts: seq<Act>)
    decreases |acts|
  {
    acts == [] || (Enabled(s, m, acts[0]) && Legal(Step(s, m, acts[0]), m, acts[1..]))
  }

  ghost function Exec(s: Merging, m: Plan, acts: seq<Act>): Merging
    requires Legal(s, m, acts)
    decreases |acts|
  {
    if acts == [] then s else Exec(Step(s, m, acts[0]), m, acts[1..])
  }

  function Begin(d: Directory): Merging {
    Merging(d, d, 0)
  }

  // --------------------------------------------------------------- invariant

  /** The deletions done by step `pc`. */
  function GoneBy(m: Plan, pc: nat): set<string> {
    var removed := Removed(m.files, m.stuck);
    var k := Min(Max(pc - |m.files| - 3, 0), |removed|);
    Elements(removed[..k])
  }

  /** Up to the publishing rename: the first `k` sources are hidden and the output is a `.part`. */
  ghost predicate HidingPhase(s: Merging, m: Plan, k: nat)
    requires k <= |m.files|
  {
    && m.part in s.dir
    && Laid(s.base, s.dir - {m.part}, Elements(m.files[..k]), AsideOf(m.files), {})
  }

  /** From the publishing rename on: every source is hidden or already deleted. */
  ghost predicate PublishedPhase(s: Merging, m: Plan, gone: set<string>) {
    && m.final in s.dir && s.dir[m.final] == m.merged
    && Laid(s.base, s.dir - {m.final}, Elements(m.files), AsideOf(m.files), gone)
  }

  ghost predicate Phase(s: Merging, m: Plan) {
    var n := |m.files|;
    && s.pc <= |Ops(m)|
    && Planned(s.base, m)
    && (s.pc == 0 ==> s.dir == s.base)
    && (1 <= s.pc <= n + 2 ==> HidingPhase(s, m, Max(s.pc - 2, 0)))
    && (2 <= s.pc <= n + 2 ==> s.dir[m.part] == m.merged)
    && (n + 3 <= s.pc ==> PublishedPhase(s, m, GoneBy(m, s.pc)))
  }

  lemma ParquetName(name: string)
    requires IsParquet(name)
    ensures name != [] && !HasSuffix(name, PART_SUFFIX) && !HasSuffix(name, SUPERSEDED_SUFFIX)
  {
  }

  /** Hidden names are new, distinct, and neither published nor parts. */
  lemma AsideIsGood(base: Directory, m: Plan)
    requires Planned(base, m)
    ensures GoodAside(base, AsideOf(m.files))
    ensures forall f | f in m.files :: !IsParquet(Hidden(f)) && !HasSuffix(Hidden(f), PART_SUFFIX)
                                       && HasSuffix(Hidden(f), SUPERSEDED_SUFFIX) && Stem(Hidden(f)) == f
  {
    forall f | f in m.files
      ensures !IsParquet(Hidden(f)) && !HasSuffix(Hidden(f), PART_SUFFIX)
              && HasSuffix(Hidden(f), SUPERSEDED_SUFFIX) && Stem(Hidden(f)) == f && Hidden(f) !in base
    {
      ParquetName(f);
      HiddenRoundTrip(f);
    }
  }

  lemma OpsAt(m: Plan, pc: nat)
    requires pc < |Ops(m)|
    ensures var n := |m.files|;
            Ops(m)[pc] == if pc == 0 then Write(m.part, m.partial)
                          else if pc == 1 then Write(m.part, m.merged)
                          else if pc < n + 2 then Rename(m.files[pc - 2], Hidden(m.files[pc - 2]))
                          else if pc == n + 2 then Rename(m.part, m.final)
                          else Delete(Removed(m.files, m.stuck)[pc - n - 3])
    ensures |Ops(m)| == |m.files| + 3 + |Removed(m.files, m.stuck)|
  {
  }

  lemma {:induction false} RemovedAreHidden(files: seq<string>, stuck: set<string>)
    ensures forall r | r in Removed(files, stuck) :: exists f :: f in files && r == Hidden(f)
  {
    if files != [] {
      RemovedAreHidden(files[1..], stuck);
      forall r | r in Removed(files, stuck) ensures exists f :: f in files && r == Hidden(f) {
        if r in Removed(files[1..], stuck) {
          var f :| f in files[1..] && r == Hidden(f);
          assert f in files;
        } else {
          assert files[0] in files;
        }
      }
    }
  }

  /** Taking out a name not involved commutes with an operation. */
  lemma MinusOne(d: Directory, op: Op<string>, n: string)
    requires match op case Write(w, _) => w != n case Rename(a, b) => a != n && b != n case Delete(w) => w != n
    ensures Apply(d, op) - {n} == Apply(d - {n}, op)
  {
  }

  lemma WriteStep(s: Merging, m: Plan)
    requires Phase(s, m) && s.pc < 2 && s.pc < |Ops(m)|
    ensures Phase(Step(s, m, Next), m)
  {
    hide Hidden, HasSuffix, IsParquet, Ops, RowsOf, Clean;
    OpsAt(m, s.pc);
    LaidNone(s.base, AsideOf(m.files));
    assert Elements(m.files[..0]) == {};
    var t := Step(s, m, Next);
    assert t.dir - {m.part} == s.dir - {m.part};
    assert s.pc == 0 ==> s.base - {m.part} == s.base;
  }

  lemma HidingStep(s: Merging, m: Plan)
    requires Phase(s, m) && 2 <= s.pc < |m.files| + 2 && s.pc < |Ops(m)|
    ensures Phase(Step(s, m, Next), m)
  {
    var k, f := s.pc - 2, m.files[s.pc - 2];
    var t := Step(s, m, Next);
    OpsAt(m, s.pc);
    AsideIsGood(s.base, m);
    NextSource(m, s.base, k);
    MinusOne(s.dir, Rename(f, Hidden(f)), m.part);
    hide Hidden, HasSuffix, IsParquet, Ops, RowsOf, Clean, Stem, Laid, Planned;
    MoveOne(s.base, s.dir - {m.part}, Elements(m.files[..k]), AsideOf(m.files), f);
  }

  lemma NextSource(m: Plan, base: Directory, k: nat)
    requires Planned(base, m) && k < |m.files|
    ensures var f := m.files[k];
            && f !in Elements(m.files[..k]) && Elements(m.files[..k + 1]) == Elements(m.files[..k]) + {f}
            && Elements(m.files[..k]) <= AsideOf(m.files).Keys
            && f in AsideOf(m.files) && AsideOf(m.files)[f] == Hidden(f)
            && m.part != f && m.part != Hidden(f)
  {
    hide RowsOf, Clean;
    ElementsNext(m.files, k);
    AsideIsGood(base, m);
  }

  lemma FinalIsNew(base: Directory, m: Plan)
    requires Planned(base, m)
    ensures m.final != m.part
    ensures forall f | f in m.files :: Hidden(f) != m.final && Hidden(f) != m.part
  {
    hide RowsOf, Clean;
    AsideIsGood(base, m);
  }

  lemma FinalNotInBase(base: Directory, m: Plan)
    requires Planned(base, m)
    ensures m.final !in base
  {
    hide RowsOf, Clean, HasSuffix, IsParquet;
  }

  lemma FinalNotLaid(s: Merging, m: Plan)
    requires Planned(s.base, m) && HidingPhase(s, m, |m.files|)
    ensures m.final !in s.dir
  {
    FinalIsNew(s.base, m);
    TakeAll(m.files);
    FinalNotInBase(s.base, m);
    hide Hidden, Planned, Laid;
    NotLaid(s.base, s.dir - {m.part}, Elements(m.files), AsideOf(m.files), {}, m.final);
  }

  lemma NothingGoneYet(m: Plan)
    ensures GoneBy(m, |m.files| + 3) == {}
  {
    assert Removed(m.files, m.stuck)[..0] == [];
  }

  lemma PublishOne(s: Merging, m: Plan)
    requires Planned(s.base, m) && HidingPhase(s, m, |m.files|) && s.dir[m.part] == m.merged
    ensures PublishedPhase(s.(dir := Apply(s.dir, Rename(m.part, m.final)), pc := s.pc + 1), m, {})
  {
    FinalNotLaid(s, m);
    assert m.files[..|m.files|] == m.files;
    hide Hidden, HasSuffix, IsParquet, RowsOf, Clean, Stem, Planned, Laid, Elements;
    RenameSwaps(s.dir, m.part, m.final);
  }

  lemma PublishStep(s: Merging, m: Plan)
    requires Phase(s, m) && s.pc == |m.files| + 2 && s.pc < |Ops(m)|
    ensures Phase(Step(s, m, Next), m)
  {
    OpsAt(m, s.pc);
    hide Hidden, HasSuffix, IsParquet, Ops, RowsOf, Clean, Stem, Planned, Laid, GoneBy, HidingPhase, PublishedPhase;
    PublishOne(s, m);
    NothingGoneYet(m);
  }

  lemma RemovedIsAside(base: Directory, m: Plan, r: string)
    requires Planned(base, m) && r in Removed(m.files, m.stuck)
    ensures r in Image(Elements(m.files), AsideOf(m.files)) && r != m.final
  {
    hide RowsOf, Clean;
    RemovedAreHidden(m.files, m.stuck);
    FinalIsNew(base, m);
    var f :| f in m.files && r == Hidden(f);
    assert AsideOf(m.files)[f] == r;
  }

  lemma DeleteOne(s: Merging, m: Plan, gone: set<string>, r: string)
    requires Planned(s.base, m) && PublishedPhase(s, m, gone) && r in Removed(m.files, m.stuck)
    ensures PublishedPhase(s.(dir := Apply(s.dir, Delete(r)), pc := s.pc + 1), m, gone + {r})
  {
    AsideIsGood(s.base, m);
    RemovedIsAside(s.base, m, r);
    hide Hidden, HasSuffix, IsParquet, RowsOf, Clean, Stem, Planned, Laid, Removed, Elements;
    MinusOne(s.dir, Delete(r), m.final);
    DeleteAside(s.base, s.dir - {m.final}, Elements(m.files), AsideOf(m.files), gone, r);
  }

  lemma GoneNext(m: Plan, pc: nat)
    requires |m.files| + 3 <= pc < |m.files| + 3 + |Removed(m.files, m.stuck)|
    ensures GoneBy(m, pc + 1) == GoneBy(m, pc) + {Removed(m.files, m.stuck)[pc - |m.files| - 3]}
  {
    ElementsNext(Removed(m.files, m.stuck), pc - |m.files| - 3);
    hide Removed;
  }

  lemma DeletingPhase(s: Merging, m: Plan)
    requires |m.files| + 3 <= s.pc <= |Ops(m)|
    ensures Phase(s, m) <==> Planned(s.base, m) && PublishedPhase(s, m, GoneBy(m, s.pc))
  {
    hide Planned, PublishedPhase, HidingPhase, GoneBy, Ops;
  }

  lemma NextDeletes(s: Merging, m: Plan) returns (r: string)
    requires |m.files| + 3 <= s.pc < |Ops(m)|
    ensures Enabled(s, m, Next) && s.pc < |m.files| + 3 + |Removed(m.files, m.stuck)|
            && r == Removed(m.files, m.stuck)[s.pc - |m.files| - 3]
    ensures Step(s, m, Next) == s.(dir := Apply(s.dir, Delete(r)), pc := s.pc + 1)
  {
    OpsAt(m, s.pc);
    hide Ops, Removed, Apply;
    r := Removed(m.files, m.stuck)[s.pc - |m.files| - 3];
  }

  lemma DeleteStep(s: Merging, m: Plan)
    requires Phase(s, m) && |m.files| + 3 <= s.pc < |Ops(m)|
    ensures Phase(Step(s, m, Next), m)
  {
    hide *;
    DeletingPhase(s, m);
    var r := NextDeletes(s, m);
    GoneNext(m, s.pc);
    DeleteOne(s, m, GoneBy(m, s.pc), r);
    DeletingPhase(Step(s, m, Next), m);
  }

  lemma {:induction false} RowsOfSame(d: Directory, e: Directory, files: seq<string>)
    requires forall f | f in files :: f in d && f in e && d[f] == e[f]
    ensures RowsOf(d, files) == RowsOf(e, files)
  {
    if files != [] {
      RowsOfSame(d, e, files[1..]);
    }
  }

  lemma ArriveKeepsPlan(s: Merging, m: Plan, name: string, file: File)
    requires Planned(s.base, m) && Fresh(s, m, name)
    ensures Planned(s.base[name := file], m)
    ensures name != m.part && forall f | f in m.files :: AsideOf(m.files)[f] != name
  {
    AsideIsGood(s.base, m);
    ParquetName(name);
    hide RowsOf, Hidden, Stem, IsParquet, HasSuffix;
    RowsOfSame(s.base, s.base[name := file], m.files);
  }

  lemma ArriveWhileHiding(s: Merging, m: Plan, k: nat, name: string, file: File)
    requires Planned(s.base, m) && k <= |m.files| && HidingPhase(s, m, k) && Fresh(s, m, name)
    ensures HidingPhase(Step(s, m, Arrive(name, file)), m, k)
  {
    AsideIsGood(s.base, m);
    ArriveKeepsPlan(s, m, name, file);
    hide Hidden, HasSuffix, IsParquet, Ops, RowsOf, Clean, Stem, Planned, Laid;
    WithoutAfterWrite(s.dir, name, file, m.part);
    ArriveOne(s.base, s.dir - {m.part}, Elements(m.files[..k]), AsideOf(m.files), {}, name, file);
  }

  lemma ArriveAfterPublishing(s: Merging, m: Plan, gone: set<string>, name: string, file: File)
    requires Planned(s.base, m) && PublishedPhase(s, m, gone) && Fresh(s, m, name)
    ensures PublishedPhase(Step(s, m, Arrive(name, file)), m, gone)
  {
    AsideIsGood(s.base, m);
    ArriveKeepsPlan(s, m, name, file);
    hide Hidden, HasSuffix, IsParquet, Ops, RowsOf, Clean, Stem, Planned, Laid;
    WithoutAfterWrite(s.dir, name, file, m.final);
    ArriveOne(s.base, s.dir - {m.final}, Elements(m.files), AsideOf(m.files), gone, name, file);
  }

  lemma ArriveStep(s: Merging, m: Plan, name: string, file: File)
    requires Phase(s, m) && Fresh(s, m, name)
    ensures Phase(Step(s, m, Arrive(name, file)), m)
  {
    hide HidingPhase, PublishedPhase, Planned, Ops, GoneBy, Fresh;
    ArriveKeepsPlan(s, m, name, file);
    if 1 <= s.pc <= |m.files| + 2 {
      ArriveWhileHiding(s, m, Max(s.pc - 2, 0), name, file);
    } else if s.pc > 0 {
      ArriveAfterPublishing(s, m, GoneBy(m, s.pc), name, file);
    }
  }

  lemma StepKeepsPhase(s: Merging, m: Plan, act: Act)
    requires Phase(s, m) && Enabled(s, m, act)
    ensures Phase(Step(s, m, act), m)
  {
    hide Phase, Fresh, Ops;
    match act
    case Arrive(name, file) => ArriveStep(s, m, name, file);
    case Next =>
      if s.pc < 2 {
        WriteStep(s, m);
      } else if s.pc < |m.files| + 2 {
        HidingStep(s, m);
      } else if s.pc == |m.files| + 2 {
        PublishStep(s, m);
      } else {
        DeleteStep(s, m);
      }
  }

  lemma {:induction false} RunKeepsPhase(s: Merging, m: Plan, acts: seq<Act>)
    requires Phase(s, m) && Legal(s, m, acts)
    ensures Phase(Exec(s, m, acts), m)
    decreases |acts|
  {
    hide Phase, Step;
    if acts != [] {
      StepKeepsPhase(s, m, acts[0]);
      RunKeepsPhase(Step(s, m, acts[0]), m, acts[1..]);
    }
  }

  // ------------------------------------------------------------ what is visible

  lemma {:induction false} RowsOfIsBag(d: Directory, files: seq<string>)
    requires forall f | f in files :: f in d
    requires Distinct(files)
    ensures multiset(RowsOf(d, files)) == RowsIn(d, Elements(files))
  {
    if files == [] {
      assert Elements(files) == {};
    } else {
      RowsOfIsBag(d, files[1..]);
      assert files == [files[0]] + files[1..];
      assert Elements(files) - {files[0]} == Elements(files[1..]);
      RowsInPick(d, Elements(files), files[0]);
    }
  }

  lemma PublishedWhileHiding(s: Merging, m: Plan, k: nat)
    requires Planned(s.base, m) && k <= |m.files| && HidingPhase(s, m, k)
    ensures Published(s.dir) == Published(s.base) - Elements(m.files[..k])
    ensures Elements(m.files[..k]) <= Published(s.base)
  {
    AsideIsGood(s.base, m);
    assert !IsParquet(m.part);
    hide RowsOf, Clean, Hidden, IsParquet, HasSuffix, Laid;
    LaidMatches(s.base, s.dir - {m.part}, Elements(m.files[..k]), AsideOf(m.files), {}, IsParquet);
    MatchingWithout(s.dir, m.part, IsParquet);
  }

  /** While sources are being hidden, exactly the rows of the hidden ones are out of sight. */
  lemma VisibleWhileHiding(s: Merging, m: Plan, k: nat)
    requires Planned(s.base, m) && k <= |m.files| && HidingPhase(s, m, k)
    ensures Visible(s.base) == Visible(s.dir) + RowsIn(s.base, Elements(m.files[..k]))
  {
    PublishedWhileHiding(s, m, k);
    hide RowsOf, Clean, Hidden, IsParquet, HasSuffix, Laid, RowsIn, Planned;
    var moved := Elements(m.files[..k]);
    var names := Published(s.base) - moved;
    RowsInSplit(s.base, Published(s.base), moved);
    LaidKeepsRows(s.base, s.dir - {m.part}, moved, AsideOf(m.files), {}, names);
    WithoutKeepsRows(s.dir, m.part, names);
  }

  lemma WithoutKeepsRows(d: Directory, n: string, names: set<string>)
    requires n !in names
    ensures RowsIn(d, names) == RowsIn(d - {n}, names)
  {
    RowsInSame(d, d - {n}, names);
  }

  lemma PublishedAfter(s: Merging, m: Plan, gone: set<string>)
    requires Planned(s.base, m) && PublishedPhase(s, m, gone)
    ensures Published(s.dir) == (Published(s.base) - Elements(m.files)) + {m.final}
    ensures Elements(m.files) <= Published(s.base) && m.final !in Published(s.base)
  {
    AsideIsGood(s.base, m);
    hide RowsOf, Clean, Hidden, IsParquet, HasSuffix, Laid;
    LaidMatches(s.base, s.dir - {m.final}, Elements(m.files), AsideOf(m.files), gone, IsParquet);
    MatchingWithout(s.dir, m.final, IsParquet);
  }

  /** Once published, every row is in sight exactly once. */
  lemma VisibleAfterPublishing(s: Merging, m: Plan, gone: set<string>)
    requires Planned(s.base, m) && PublishedPhase(s, m, gone)
    ensures Visible(s.dir) == Visible(s.base)
  {
    PublishedAfter(s, m, gone);
    RowsOfIsBag(s.base, m.files);
    RowsInOne(s.dir, m.final);
    hide RowsOf, Clean, Hidden, IsParquet, HasSuffix, Laid, RowsIn;
    var moved := Elements(m.files);
    var names := Published(s.base) - moved;
    RowsInSplit(s.base, Published(s.base), moved);
    LaidKeepsRows(s.base, s.dir - {m.final}, moved, AsideOf(m.files), gone, names);
    WithoutKeepsRows(s.dir, m.final, names);
    RowsInUnion(s.dir, names, {m.final});
  }

  /** No directory state of a merge shows a row twice, and from the publishing
      rename on every row is shown. */
  lemma NeverShownTwice(s: Merging, m: Plan)
    requires Phase(s, m)
    ensures Visible(s.dir) <= Visible(s.base)
    ensures s.pc <= 2 || |m.files| + 3 <= s.pc ==> Visible(s.dir) == Visible(s.base)
  {
    hide Visible, Laid, Planned, Ops, RowsIn;
    if |m.files| + 3 <= s.pc {
      VisibleAfterPublishing(s, m, GoneBy(m, s.pc));
    } else if 1 <= s.pc {
      VisibleWhileHiding(s, m, Max(s.pc - 2, 0));
      NoRowsOfNone(s.base, m);
    }
  }

  lemma NoRowsOfNone(d: Directory, m: Plan)
    ensures RowsIn(d, Elements(m.files[..0])) == multiset{}
  {
    assert Elements(m.files[..0]) == {};
  }

  // --------------------------------------------------------------- recovery

  lemma {:induction false} SelectMembers(listing: seq<string>, suffix: string)
    requires Distinct(listing)
    ensures Distinct(Select(listing, suffix))
    ensures forall n :: n in Select(listing, suffix) <==> n in listing && HasSuffix(n, suffix)
  {
    hide HasSuffix;
    if listing != [] {
      assert listing == [listing[0]] + listing[1..];
      SelectMembers(listing[1..], suffix);
    }
  }

  function WithSuffix(suffix: string): string -> bool {
    (n: string) => HasSuffix(n, suffix)
  }

  lemma SelectMatches(listing: seq<string>, d: Directory, suffix: string)
    requires Enumerates(listing, d)
    ensures Distinct(Select(listing, suffix)) && Elements(Select(listing, suffix)) == Matching(d, WithSuffix(suffix))
  {
    SelectMembers(listing, suffix);
    hide HasSuffix, Select;
    assert forall n :: n in listing <==> n in Elements(listing);
  }

  /** What recovery finds while sources are being hidden: the one `.part`, and the hidden sources. */
  lemma FoundWhileHiding(s: Merging, m: Plan, k: nat, listing: seq<string>)
    requires Planned(s.base, m) && k <= |m.files| && HidingPhase(s, m, k) && Enumerates(listing, s.dir)
    ensures Select(listing, PART_SUFFIX) == [m.part]
    ensures var hidden := Select(listing, SUPERSEDED_SUFFIX);
            NamesAside(hidden, Stems(hidden), Elements(m.files[..k]), AsideOf(m.files))
  {
    AsideIsGood(s.base, m);
    SelectMatches(listing, s.dir, PART_SUFFIX);
    SelectMatches(listing, s.dir, SUPERSEDED_SUFFIX);
    assert !HasSuffix(m.part, SUPERSEDED_SUFFIX);
    hide Hidden, HasSuffix, IsParquet, RowsOf, Stem, Laid, Select;
    var moved, aside, e := Elements(m.files[..k]), AsideOf(m.files), s.dir - {m.part};
    LaidFinds(s.base, e, moved, aside, {}, WithSuffix(PART_SUFFIX), false);
    LaidFinds(s.base, e, moved, aside, {}, WithSuffix(SUPERSEDED_SUFFIX), true);
    MatchingWithout(s.dir, m.part, WithSuffix(PART_SUFFIX));
    MatchingWithout(s.dir, m.part, WithSuffix(SUPERSEDED_SUFFIX));
    OnlyOne(Select(listing, PART_SUFFIX), m.part);
    var hidden := Select(listing, SUPERSEDED_SUFFIX);
    FoundAside(hidden, Stems(hidden), moved, aside, Stem);
  }

  /** After publishing it finds no `.part`, and the hidden sources still there. */
  lemma FoundAfterPublishing(s: Merging, m: Plan, gone: set<string>, listing: seq<string>)
    requires Planned(s.base, m) && PublishedPhase(s, m, gone) && Enumerates(listing, s.dir)
    ensures Select(listing, PART_SUFFIX) == []
    ensures Distinct(Select(listing, SUPERSEDED_SUFFIX))
    ensures Elements(Select(listing, SUPERSEDED_SUFFIX)) == Image(Elements(m.files), AsideOf(m.files)) - gone
  {
    AsideIsGood(s.base, m);
    SelectMatches(listing, s.dir, PART_SUFFIX);
    SelectMatches(listing, s.dir, SUPERSEDED_SUFFIX);
    ParquetName(m.final);
    hide Hidden, HasSuffix, IsParquet, RowsOf, Stem, Laid, Select;
    var moved, aside, e := Elements(m.files), AsideOf(m.files), s.dir - {m.final};
    LaidFinds(s.base, e, moved, aside, gone, WithSuffix(PART_SUFFIX), false);
    LaidFinds(s.base, e, moved, aside, gone, WithSuffix(SUPERSEDED_SUFFIX), true);
    MatchingWithout(s.dir, m.final, WithSuffix(PART_SUFFIX));
    MatchingWithout(s.dir, m.final, WithSuffix(SUPERSEDED_SUFFIX));
    NoElements(Select(listing, PART_SUFFIX));
  }

  /** `.part` files of flushers beside `d`. */
  ghost predicate AreParts(parts: Directory, d: Directory) {
    parts.Keys !! d.Keys && forall n | n in parts :: HasSuffix(n, PART_SUFFIX)
  }

  lemma PartIsNotHidden(name: string)
    ensures HasSuffix(name, PART_SUFFIX) ==> !HasSuffix(name, SUPERSEDED_SUFFIX) && !IsParquet(name)
  {
  }

  /** With any `.part` there a recovery pass rolls back: it drops them all and
      restores whatever is hidden. */
  lemma RollbackBeside(u: Directory, e: Directory, moved: set<string>, aside: map<string, string>, parts: Directory,
                       listing: seq<string>)
    requires GoodAside(u, aside) && moved <= aside.Keys && Laid(u, e, moved, aside, {}) && Clean(u)
    requires AreParts(parts, e) && parts != map[] && Enumerates(listing, e + parts)
    requires forall f | f in moved :: !HasSuffix(aside[f], PART_SUFFIX) && HasSuffix(aside[f], SUPERSEDED_SUFFIX)
                                      && Stem(aside[f]) == f
    ensures ApplyAll(e + parts, RecoverOps(listing)) == u
  {
    var found, hidden := Select(listing, PART_SUFFIX), Select(listing, SUPERSEDED_SUFFIX);
    SelectMatches(listing, e + parts, PART_SUFFIX);
    SelectMatches(listing, e + parts, SUPERSEDED_SUFFIX);
    forall n | n in parts ensures !HasSuffix(n, SUPERSEDED_SUFFIX) {
      PartIsNotHidden(n);
    }
    hide HasSuffix, IsParquet, Stem, Laid, Select, GoodAside;
    FindsBeside(u, e, moved, aside, parts, WithSuffix(PART_SUFFIX), WithSuffix(SUPERSEDED_SUFFIX));
    FoundAside(hidden, Stems(hidden), moved, aside, Stem);
    hide Stems, NamesAside, Clean, Matching;
    RestoreBeside(u, e, moved, aside, parts, found, hidden, Stems(hidden));
    NoElements(found);
    assert parts.Keys != {};
  }

  lemma NoElements(names: seq<string>)
    ensures Elements(names) == {} <==> names == []
  {
    if names != [] {
      assert names[0] in Elements(names);
    }
  }

  /** Before publishing, a completed recovery puts the partition back as it was. */
  lemma RollbackRestores(s: Merging, m: Plan, k: nat, listing: seq<string>)
    requires Planned(s.base, m) && k <= |m.files| && HidingPhase(s, m, k) && Enumerates(listing, s.dir)
    ensures ApplyAll(s.dir, RecoverOps(listing)) == s.base
  {
    AsideIsGood(s.base, m);
    FoundWhileHiding(s, m, k, listing);
    hide Hidden, HasSuffix, IsParquet, RowsOf, Stem, Laid, Select, Stems, Clean;
    var hidden := Select(listing, SUPERSEDED_SUFFIX);
    ApplyAllAppend(s.dir, Deletes([m.part]), Renames(hidden, Stems(hidden)));
    DeleteAll(s.dir, [m.part]);
    assert Elements([m.part]) == {m.part};
    RestoreAll(s.base, s.dir - {m.part}, Elements(m.files[..k]), AsideOf(m.files), hidden, Stems(hidden));
    assert RecoverOps(listing) == Deletes([m.part]) + Renames(hidden, Stems(hidden));
  }

  /** After publishing, it finishes the cleanup. */
  lemma CleanupFinishes(s: Merging, m: Plan, gone: set<string>, listing: seq<string>)
    requires Planned(s.base, m) && PublishedPhase(s, m, gone) && Enumerates(listing, s.dir)
    ensures var t := s.(dir := ApplyAll(s.dir, RecoverOps(listing)));
            exists all :: PublishedPhase(t, m, all) && Image(Elements(m.files), AsideOf(m.files)) <= all
  {
    FinalIsNew(s.base, m);
    FinalNotAside(m);
    FoundAfterPublishing(s, m, gone, listing);
    hide Hidden, HasSuffix, IsParquet, RowsOf, Stem, Laid, Select, Stems, Clean, Planned, Elements, PublishedPhase;
    var hidden := Select(listing, SUPERSEDED_SUFFIX);
    DeleteAll(s.dir, hidden);
    DropHidden(s, m, gone, Elements(hidden));
    assert PublishedPhase(s.(dir := s.dir - Elements(hidden)), m, gone + Elements(hidden));
  }

  lemma DropHidden(s: Merging, m: Plan, gone: set<string>, names: set<string>)
    requires Planned(s.base, m) && PublishedPhase(s, m, gone)
    requires names <= Image(Elements(m.files), AsideOf(m.files)) && m.final !in names
    ensures PublishedPhase(s.(dir := s.dir - names), m, gone + names)
  {
    AsideIsGood(s.base, m);
    hide Hidden, HasSuffix, IsParquet, RowsOf, Stem, Laid, Clean, Planned, Elements;
    DropAside(s.base, s.dir - {m.final}, Elements(m.files), AsideOf(m.files), gone, names);
    MinusTwice(s.dir, m.final, names);
  }

  lemma FinalNotAside(m: Plan)
    requires forall f | f in m.files :: Hidden(f) != m.final
    ensures m.final !in Image(Elements(m.files), AsideOf(m.files))
  {
    hide Hidden;
  }

  lemma RecoveryFrom(s: Merging, m: Plan, listing: seq<string>)
    requires Phase(s, m) && Enumerates(listing, s.dir)
    ensures Visible(ApplyAll(s.dir, RecoverOps(listing))) == Visible(s.base)
  {
    hide Visible, Planned, Ops, Laid, RecoverOps, HidingPhase, PublishedPhase, GoneBy;
    if s.pc == 0 {
      NothingToRecover(s.dir, listing) by { PlannedIsClean(s.base, m); }
    } else if s.pc <= |m.files| + 2 {
      RollbackRestores(s, m, Max(s.pc - 2, 0), listing);
    } else {
      CleanupFinishes(s, m, GoneBy(m, s.pc), listing);
      var t := s.(dir := ApplyAll(s.dir, RecoverOps(listing)));
      var all :| PublishedPhase(t, m, all) && Image(Elements(m.files), AsideOf(m.files)) <= all;
      VisibleAfterPublishing(t, m, all);
    }
  }

  lemma PublishedAndCleanedUp(s: Merging, m: Plan, all: set<string>)
    requires Planned(s.base, m) && PublishedPhase(s, m, all) && Image(Elements(m.files), AsideOf(m.files)) <= all
    ensures Clean(s.dir)
  {
    ParquetName(m.final);
    hide Hidden, HasSuffix, IsParquet, RowsOf, Stem, AsideOf;
    assert forall n | n in s.dir :: n == m.final || n in s.dir - {m.final};
  }

  /** A completed recovery leaves no `.part` and no hidden chunk, so the next merge starts clean. */
  lemma RecoveryCleans(s: Merging, m: Plan, listing: seq<string>)
    requires Phase(s, m) && Enumerates(listing, s.dir)
    ensures Clean(ApplyAll(s.dir, RecoverOps(listing)))
  {
    PlannedIsClean(s.base, m);
    hide Planned, Ops, Laid, RecoverOps, HidingPhase, PublishedPhase, GoneBy, Clean;
    if s.pc == 0 {
      NothingToRecover(s.dir, listing);
    } else if s.pc <= |m.files| + 2 {
      RollbackRestores(s, m, Max(s.pc - 2, 0), listing);
    } else {
      CleanupFinishes(s, m, GoneBy(m, s.pc), listing);
      var t := s.(dir := ApplyAll(s.dir, RecoverOps(listing)));
      var all :| PublishedPhase(t, m, all) && Image(Elements(m.files), AsideOf(m.files)) <= all;
      PublishedAndCleanedUp(t, m, all);
    }
  }

  /** Crash anywhere in a merge, with chunks arriving in between, and let one
      recovery pass run to its end: the scan shows exactly the rows the partition
      should hold, each once. */
  lemma RecoveryKeepsEveryRow(start: Directory, m: Plan, acts: seq<Act>, listing: seq<string>)
    requires Planned(start, m) && Legal(Begin(start), m, acts)
    requires Enumerates(listing, Exec(Begin(start), m, acts).dir)
    ensures var s := Exec(Begin(start), m, acts);
            Visible(ApplyAll(s.dir, RecoverOps(listing))) == Visible(s.base)
  {
    RunKeepsPhase(Begin(start), m, acts);
    RecoveryFrom(Exec(Begin(start), m, acts), m, listing);
  }

  lemma PlannedIsClean(base: Directory, m: Plan)
    requires Planned(base, m)
    ensures Clean(base)
  {
  }

  lemma NothingToRecover(d: Directory, listing: seq<string>)
    requires Clean(d) && Enumerates(listing, d)
    ensures RecoverOps(listing) == []
  {
    SelectMembers(listing, PART_SUFFIX);
    SelectMembers(listing, SUPERSEDED_SUFFIX);
    hide HasSuffix, Select;
    assert forall n | n in listing :: n in Elements(listing);
    assert Elements(Select(listing, PART_SUFFIX)) == {};
    assert Elements(Select(listing, SUPERSEDED_SUFFIX)) == {};
    NoElements(Select(listing, PART_SUFFIX));
    NoElements(Select(listing, SUPERSEDED_SUFFIX));
  }

  /** During a merge no scan ever shows a row twice; rows can be out of sight
      only between the first hiding and the publishing rename. */
  lemma MergeNeverDuplicates(start: Directory, m: Plan, acts: seq<Act>)
    requires Planned(start, m) && Legal(Begin(start), m, acts)
    ensures var s := Exec(Begin(start), m, acts);
            && Visible(s.dir) <= Visible(s.base)
            && (s.pc <= 2 || |m.files| + 3 <= s.pc ==> Visible(s.dir) == Visible(s.base))
  {
    RunKeepsPhase(Begin(start), m, acts);
    NeverShownTwice(Exec(Begin(start), m, acts), m);
  }

  function Nexts(k: nat): seq<Act> {
    seq(k, i requires 0 <= i < k => Next)
  }

  /** Without arrivals a run is a prefix of the merge's operations. */
  lemma {:induction false} NextsAreOps(start: Directory, m: Plan, k: nat, s: Merging)
    requires s.pc + k <= |Ops(m)| && s == Merging(ApplyAll(start, Ops(m)[..s.pc]), start, s.pc)
    ensures Legal(s, m, Nexts(k))
    ensures Exec(s, m, Nexts(k)) == Merging(ApplyAll(start, Ops(m)[..s.pc + k]), start, s.pc + k)
    decreases k
  {
    hide Ops;
    if k > 0 {
      ApplyPrefixNext(start, Ops(m), s.pc);
      assert Nexts(k)[1..] == Nexts(k - 1);
      NextsAreOps(start, m, k - 1, Step(s, m, Next));
    }
  }

  /** What a merge stopped after `k` operations shows. */
  lemma CutShows(start: Directory, m: Plan, k: nat)
    requires Planned(start, m) && k <= |Ops(m)|
    ensures Visible(ApplyAll(start, Ops(m)[..k])) <= Visible(start)
    ensures k == |Ops(m)| ==> Visible(ApplyAll(start, Ops(m)[..k])) == Visible(start)
  {
    hide Visible, Planned, Exec, Legal;
    assert |Ops(m)| >= |m.files| + 3;
    assert Ops(m)[..0] == [];
    NextsAreOps(start, m, k, Begin(start));
    MergeNeverDuplicates(start, m, Nexts(k));
  }

  /** `needs_recovery` in `walk_for_partitions`. */
  predicate NeedsRecovery(d: Directory) {
    exists n | n in d :: HasSuffix(n, PART_SUFFIX) || HasSuffix(n, SUPERSEDED_SUFFIX)
  }

  /** A partition the sweep does not pick for recovery has nothing out of sight. */
  lemma UnsweptIsWhole(start: Directory, m: Plan, acts: seq<Act>)
    requires Planned(start, m) && Legal(Begin(start), m, acts)
    ensures var s := Exec(Begin(start), m, acts);
            !NeedsRecovery(s.dir) ==> Visible(s.dir) == Visible(s.base)
  {
    RunKeepsPhase(Begin(start), m, acts);
    var s := Exec(Begin(start), m, acts);
    NeverShownTwice(s, m);
    if 1 <= s.pc <= |m.files| + 2 {
      assert m.part in s.dir && HasSuffix(m.part, PART_SUFFIX);
    }
  }
}
