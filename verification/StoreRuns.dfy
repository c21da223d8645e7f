/** Placement over the life of the data directory: flushes, compactions and purges in any order. */
module StoreRuns {
  import opened Seqs
  import opened Records
  import opened Calendar
  import opened Directories
  import opened Storage
  import Retention
  import Compaction

  function Entries(store: Store, dir: Path): (names: set<string>)
    ensures forall n :: n in names <==> dir + [n] in store
  {
    var names := set p | p in store && |p| == |dir| + 1 && p[..|dir|] == dir :: p[|dir|];
    assert forall n | dir + [n] in store :: (dir + [n])[..|dir|] == dir && (dir + [n])[|dir|] == n;
    assert forall p | |p| == |dir| + 1 && p[..|dir|] == dir :: p == dir + [p[|dir|]];
    names
  }

  /** The files of one directory. */
  function View(store: Store, dir: Path): map<string, File> {
    map n | n in Entries(store, dir) :: store[dir + [n]]
  }

  /** Every row of `after` is in some file of `before`. */
  ghost predicate RowsFrom(after: map<string, File>, before: map<string, File>) {
    forall n, r | n in after && r in after[n].rows :: exists o :: o in before && r in before[o].rows
  }

  /** What a sweep turns out to do (`SweepCompacts`): it works inside one service
      directory and makes up no rows. */
  ghost predicate Compacts(a: Store, b: Store, root: Path, k: Key, range: Range) {
    var dir := DirOf(root, k);
    && InRange(k.1, range)
    && (forall p | p in b && !(|p| == |dir| + 1 && p[..|dir|] == dir) :: p in a && b[p] == a[p])
    && RowsFrom(View(b, dir), View(a, dir))
  }

  /** `b` is `a` except for what lies directly in `dir`. */
  ghost predicate OnlyIn(a: Store, b: Store, dir: Path) {
    forall p | !(|p| == |dir| + 1 && p[..|dir|] == dir) :: (p in a <==> p in b) && (p in a ==> a[p] == b[p])
  }

  /** A merge of chunks of `d`; a half-written output is taken to hold only rows copied so far. */
  ghost predicate MergeOf(m: Compaction.Plan, d: Compaction.Directory) {
    && (forall f | f in m.files :: f in d)
    && m.merged.rows == Compaction.RowsOf(d, m.files) && m.partial.rows <= m.merged.rows
  }

  /** `compact_partition` on `d`, stopped after some of its file operations: in its
      recovery pass, or in the merge that follows a completed one. */
  ghost predicate Sweep(d: Compaction.Directory, e: Compaction.Directory, listing: seq<string>, m: Compaction.Plan,
                        i: nat) {
    var ops := Compaction.RecoverOps(listing);
    || (i <= |ops| && e == ApplyAll(d, ops[..i]))
    || (MergeOf(m, ApplyAll(d, ops)) && i <= |Compaction.Ops(m)|
        && e == ApplyAll(ApplyAll(d, ops), Compaction.Ops(m)[..i]))
  }

  /** A sweep of one service directory. */
  ghost predicate Sweeps(a: Store, b: Store, root: Path, k: Key, range: Range) {
    && InRange(k.1, range) && OnlyIn(a, b, DirOf(root, k))
    && exists listing, m, i :: Sweep(View(a, DirOf(root, k)), View(b, DirOf(root, k)), listing, m, i)
  }

  /** One change of the data directory. */
  ghost predicate Changes(a: Store, b: Store, root: Path, range: Range) {
    || (exists batch: seq<LogRecord>, c: Clock, done: set<Key>, part: Option<Key> ::
          c.range == range && Sane(c) && done <= Keys(batch, c) && PartlyFlushed(b, a, batch, done, part, root, c))
    || (exists k: Key :: Sweeps(a, b, root, k, range))
    || (exists cutoff: Date, stubborn: set<Path> :: Retention.Purged(a, b, root, cutoff, range, stubborn))
  }

  // ------------------------------------------ compaction makes up no rows

  /** An operation that writes only rows found in `source`. */
  ghost predicate Draws(op: Op<string>, source: map<string, File>) {
    op.Write? ==> forall r | r in op.file.rows :: exists o :: o in source && r in source[o].rows
  }

  lemma OpKeepsRowsFrom(d: map<string, File>, op: Op<string>, source: map<string, File>)
    requires RowsFrom(d, source) && Draws(op, source)
    ensures RowsFrom(Apply(d, op), source)
  {
    var e := Apply(d, op);
    forall n, r | n in e && r in e[n].rows ensures exists o :: o in source && r in source[o].rows {
      if op.Rename? && op.source in d && n == op.target {
        assert r in d[op.source].rows;
      } else if !(op.Write? && n == op.name) {
        assert r in d[n].rows;
      }
    }
  }

  lemma {:induction false} OpsKeepRowsFrom(d: map<string, File>, ops: seq<Op<string>>, source: map<string, File>)
    requires RowsFrom(d, source) && forall op | op in ops :: Draws(op, source)
    ensures RowsFrom(ApplyAll(d, ops), source)
    decreases |ops|
  {
    if ops != [] {
      OpKeepsRowsFrom(d, ops[0], source);
      OpsKeepRowsFrom(Apply(d, ops[0]), ops[1..], source);
    }
  }

  lemma {:induction false} RowsOfDraws(d: Compaction.Directory, files: seq<string>)
    requires forall f | f in files :: f in d
    ensures forall r | r in Compaction.RowsOf(d, files) :: exists f :: f in files && r in d[f].rows
  {
    if files != [] {
      RowsOfDraws(d, files[1..]);
      forall r | r in Compaction.RowsOf(d, files) ensures exists f :: f in files && r in d[f].rows {
        if r in Compaction.RowsOf(d, files[1..]) {
          var f :| f in files[1..] && r in d[f].rows;
          assert f in files;
        } else {
          assert files[0] in files;
        }
      }
    }
  }

  /** A merge, stopped anywhere, holds only rows its directory held. */
  lemma MergeStaysInPlace(d: Compaction.Directory, m: Compaction.Plan, k: nat)
    requires k <= |Compaction.Ops(m)| && MergeOf(m, d)
    ensures RowsFrom(ApplyAll(d, Compaction.Ops(m)[..k]), d)
  {
    RowsOfDraws(d, m.files);
    var ops := Compaction.Ops(m);
    hide Compaction.RowsOf;
    forall op | op in ops[..k] ensures Draws(op, d) {
      if op.Write? {
        assert forall r | r in op.file.rows :: r in m.merged.rows;
      }
    }
    assert RowsFrom(d, d);
    OpsKeepRowsFrom(d, ops[..k], d);
  }

  /** So does a recovery pass. */
  lemma RecoveryStaysInPlace(d: Compaction.Directory, listing: seq<string>, k: nat)
    requires k <= |Compaction.RecoverOps(listing)|
    ensures RowsFrom(ApplyAll(d, Compaction.RecoverOps(listing)[..k]), d)
  {
    var ops := Compaction.RecoverOps(listing);
    hide Compaction.Select, Compaction.Stems;
    forall op | op in ops[..k] ensures Draws(op, d) {
      assert !op.Write?;
    }
    assert RowsFrom(d, d);
    OpsKeepRowsFrom(d, ops[..k], d);
  }

  lemma RowsFromTrans(c: map<string, File>, b: map<string, File>, a: map<string, File>)
    requires RowsFrom(c, b) && RowsFrom(b, a)
    ensures RowsFrom(c, a)
  {
    forall n, r | n in c && r in c[n].rows ensures exists o :: o in a && r in a[o].rows {
      var o :| o in b && r in b[o].rows;
    }
  }

  lemma SweepDraws(d: Compaction.Directory, e: Compaction.Directory, listing: seq<string>, m: Compaction.Plan, i: nat)
    requires Sweep(d, e, listing, m, i)
    ensures RowsFrom(e, d)
  {
    hide Compaction.RecoverOps, Compaction.Ops, MergeOf, RowsFrom;
    var ops := Compaction.RecoverOps(listing);
    if i <= |ops| && e == ApplyAll(d, ops[..i]) {
      RecoveryStaysInPlace(d, listing, i);
    } else {
      TakeAll(ops);
      RecoveryStaysInPlace(d, listing, |ops|);
      MergeStaysInPlace(ApplyAll(d, ops), m, i);
      RowsFromTrans(e, ApplyAll(d, ops), d);
    }
  }

  /** A sweep stopped anywhere works inside its directory and makes up no rows. */
  lemma SweepCompacts(a: Store, b: Store, root: Path, k: Key, range: Range)
    requires Sweeps(a, b, root, k, range)
    ensures Compacts(a, b, root, k, range)
  {
    hide Sweep, View, RowsFrom, DirOf, InRange;
    var listing, m, i :| Sweep(View(a, DirOf(root, k)), View(b, DirOf(root, k)), listing, m, i);
    SweepDraws(View(a, DirOf(root, k)), View(b, DirOf(root, k)), listing, m, i);
  }

  // ------------------------------------------------------ placement is kept

  ghost predicate FitsI32(range: Range) {
    -(I32_MAX as int) - 1 <= range.firstYear && range.lastYear <= I32_MAX
  }

  lemma FileInView(store: Store, root: Path, k: Key, name: string, range: Range)
    requires FitsI32(range) && Placed(store, root, range) && InRange(k.1, range) && name in View(store, DirOf(root, k))
    ensures forall r | r in View(store, DirOf(root, k))[name].rows :: BelongsTo(r, k, range)
  {
    DirComponents(root, k);
    hide DirOf, BelongsTo, InRange;
    var p := DirOf(root, k) + [name];
    var j: Key :| PlacedUnder(p, store[p].rows, root, j, range);
    DirsDiffer(root, j, k, range);
  }

  lemma CompactionKeepsPlaced(a: Store, b: Store, root: Path, k: Key, range: Range)
    requires FitsI32(range) && Placed(a, root, range) && Compacts(a, b, root, k, range)
    ensures Placed(b, root, range)
  {
    DirComponents(root, k);
    hide DirOf, BelongsTo, InRange;
    var dir := DirOf(root, k);
    forall p | p in b ensures exists j: Key :: PlacedUnder(p, b[p].rows, root, j, range) {
      if |p| == |dir| + 1 && p[..|dir|] == dir {
        var name := p[|dir|];
        ViewHas(b, dir, p);
        forall r | r in b[p].rows ensures BelongsTo(r, k, range) {
          var o :| o in View(a, dir) && r in View(a, dir)[o].rows;
          FileInView(a, root, k, o, range);
        }
        assert PlacedUnder(p, b[p].rows, root, k, range);
      } else {
        assert exists j: Key :: PlacedUnder(p, a[p].rows, root, j, range);
      }
    }
  }

  lemma ViewHas(store: Store, dir: Path, p: Path)
    requires p in store && |p| == |dir| + 1 && p[..|dir|] == dir
    ensures p[|dir|] in View(store, dir) && View(store, dir)[p[|dir|]] == store[p]
  {
    assert p == dir + [p[|dir|]];
  }

  lemma PurgeKeepsPlaced(a: Store, b: Store, root: Path, cutoff: Date, range: Range, stubborn: set<Path>)
    requires Placed(a, root, range) && Retention.Purged(a, b, root, cutoff, range, stubborn)
    ensures Placed(b, root, range)
  {
    hide PlacedUnder;
  }

  lemma ChangeKeepsPlaced(a: Store, b: Store, root: Path, range: Range)
    requires FitsI32(range) && Placed(a, root, range) && Changes(a, b, root, range)
    ensures Placed(b, root, range)
  {
    hide Placed, Compacts, Sweeps, Retention.Purged, PartlyFlushed, Sane, Keys;
    if exists batch: seq<LogRecord>, c: Clock, done: set<Key>, part: Option<Key> ::
        c.range == range && Sane(c) && done <= Keys(batch, c) && PartlyFlushed(b, a, batch, done, part, root, c)
    {
      var batch: seq<LogRecord>, c: Clock, done: set<Key>, part: Option<Key> :|
        c.range == range && Sane(c) && done <= Keys(batch, c) && PartlyFlushed(b, a, batch, done, part, root, c);
      PartlyFlushedPlaces(b, a, batch, done, part, root, c);
    } else if k: Key :| Sweeps(a, b, root, k, range) {
      SweepCompacts(a, b, root, k, range);
      CompactionKeepsPlaced(a, b, root, k, range);
    } else {
      PurgeChanges(a, b, root, range);
    }
  }

  lemma PurgeChanges(a: Store, b: Store, root: Path, range: Range)
    requires Placed(a, root, range)
    requires exists cutoff: Date, stubborn: set<Path> :: Retention.Purged(a, b, root, cutoff, range, stubborn)
    ensures Placed(b, root, range)
  {
    hide Placed;
    var cutoff: Date, stubborn: set<Path> :| Retention.Purged(a, b, root, cutoff, range, stubborn);
    PurgeKeepsPlaced(a, b, root, cutoff, range, stubborn);
  }

  /** A data directory's states from the empty one on. */
  ghost predicate Life(run: seq<Store>, root: Path, range: Range) {
    run != [] && run[0] == map[] && forall i | 0 < i < |run| :: Changes(run[i - 1], run[i], root, range)
  }

  lemma {:induction false} PlacedThroughout(run: seq<Store>, root: Path, range: Range, i: nat)
    requires FitsI32(range) && Life(run, root, range) && i < |run|
    ensures Placed(run[i], root, range)
  {
    hide Changes;
    if i > 0 {
      PlacedThroughout(run, root, range, i - 1);
      hide Placed;
      ChangeKeepsPlaced(run[i - 1], run[i], root, range);
    }
  }

  /** Whatever flushes, compactions and purges came before, a purge with cutoff day
      `cutoffDay` removes exactly the rows of earlier days. */
  lemma PurgeDropsExactlyTheExpired(run: seq<Store>, after: Store, root: Path, range: Range, cutoffDay: int,
                                    p: Path, r: LogRecord)
    requires FitsI32(range) && Life(run, root, range)
    requires Retention.Purged(run[|run| - 1], after, root, DateOf(cutoffDay), range, {})
    requires p in run[|run| - 1] && r in run[|run| - 1][p].rows && InRange(DateOf(DayOf(r.timestampUs)), range)
    ensures p in after <==> DayOf(r.timestampUs) >= cutoffDay
    ensures p in after ==> after[p] == run[|run| - 1][p]
  {
    PlacedThroughout(run, root, range, |run| - 1);
    hide Life, Placed, Retention.Purged, DateOf;
    Retention.PurgeIsExact(run[|run| - 1], after, root, range, cutoffDay, p, r);
  }
}
