/**
 What the data directory shows over its life: flushes, whole or failed, sweeps cut
 short at any file operation and resumed or recovered from, and purges, in any
 interleaving over all partitions.
 */
module StoreLife {
  import opened Seqs
  import opened Records
  import opened Calendar
  import opened Directories
  import opened Storage
  import opened Compaction
  import opened CompactionSafety
  import opened StoreRuns
  import opened PartitionLife
  import Retention

  /** Every partition is idle and empty until something is in `work`. */
  datatype State = State(store: Store, work: map<Key, Work>)

  function WorkAt(st: State, k: Key): Work {
    if k in st.work then st.work[k] else Idle(map[], map[])
  }

  /** A flush that got through the keys `done`; the `.part` of a flusher, for a chunk in
      the making or one that will never be; a recovery pass that ran to its end; a
      planned merge; its next file operation; a purge. */
  datatype Event =
    | Flush(batch: seq<LogRecord>, c: Clock, done: set<Key>)
    | Stray(k: Key, name: string, file: File)
    | Recover(k: Key, listing: seq<string>)
    | Merge(k: Key, m: Plan)
    | Operate(k: Key)
    | Purge(cutoff: Date)

  /** The work of every partition once the chunks of `done` are in `store`. */
  function Landed(a: State, store: Store, done: set<Key>, root: Path, c: Clock): map<Key, Work>
    requires forall k | k in done :: ChunkPath(root, k, c.nanos) in store
  {
    a.work + map k | k in done :: Arrived(WorkAt(a, k), ChunkName(c.nanos), store[ChunkPath(root, k, c.nanos)])
  }

  /** The chunks of a flush that reached `done`, under names not in use. */
  ghost predicate Flushes(a: State, b: State, batch: seq<LogRecord>, c: Clock, done: set<Key>, root: Path) {
    && Sane(c) && done <= Keys(batch, c) && HasChunks(b.store, a.store, batch, done, root, c)
    && a.store.Keys !! Storage.Written(root, done, c.nanos)
    && (forall k | k in done :: CanArrive(WorkAt(a, k), ChunkName(c.nanos)))
    && b.work == Landed(a, b.store, done, root, c)
  }

  /** What can happen in one partition. */
  ghost predicate Able(w: Work, e: Event, range: Range) {
    match e
    case Stray(k, name, file) => CanStray(w, name) && forall r | r in file.rows :: BelongsTo(r, k, range)
    case Recover(_, listing) => Harmless(w) && Enumerates(listing, DirNow(w))
    case Merge(_, m) => w.Idle? && Planned(w.base, m) && m.part !in w.parts && m.partial.rows <= m.merged.rows
    case Operate(_) => w.Sweeping? && w.s.pc < |Ops(w.m)|
    case _ => false
  }

  /** That is: a `.part` under any name not in use, with rows of the partition, in any phase
      of a merge; a recovery pass, over any listing, that does no harm; any planned merge
      where none is under way; and its next file operation while it has one. */
  lemma WhatMayHappen(w: Work, k: Key, name: string, file: File, listing: seq<string>, m: Plan, range: Range)
    ensures Able(w, Stray(k, name, file), range)
            <==> HasSuffix(name, "part") && name !in DirNow(w) && (w.Sweeping? ==> name != w.m.part)
                 && forall r | r in file.rows :: BelongsTo(r, k, range)
    ensures Able(w, Recover(k, listing), range) <==> Harmless(w) && Enumerates(listing, DirNow(w))
    ensures Able(w, Merge(k, m), range)
            <==> w.Idle? && Planned(w.base, m) && m.part !in w.parts && m.partial.rows <= m.merged.rows
    ensures Able(w, Operate(k), range) <==> w.Sweeping? && w.s.pc < |Ops(w.m)|
  {
    hide HasSuffix, Planned, Harmless, Enumerates, Ops;
  }

  ghost function After(w: Work, e: Event, range: Range): Work
    requires Able(w, e, range)
  {
    match e
    case Stray(_, name, file) => Strayed(w, name, file)
    case Recover(_, listing) => Idle(ApplyAll(DirNow(w), RecoverOps(listing)), map[])
    case Merge(_, m) => Sweeping(m, Begin(w.base), w.parts)
    case Operate(_) => Operated(w)
  }

  /** One partition goes on to `w`; its directory holds what `w` says, the others what they held. */
  ghost predicate Becomes(a: State, b: State, root: Path, k: Key, w: Work) {
    && OnlyIn(a.store, b.store, DirOf(root, k)) && View(b.store, DirOf(root, k)) == DirNow(w)
    && b.work == a.work[k := w]
  }

  ghost predicate Moves(a: State, e: Event, b: State, root: Path, range: Range) {
    match e
    case Flush(batch, c, done) => c.range == range && Flushes(a, b, batch, c, done, root)
    case Purge(cutoff) =>
      && Retention.Purged(a.store, b.store, root, cutoff, range, {})
      && b.work == map k | k in a.work && !Before(k.1, cutoff) :: a.work[k]
    case _ =>
      && InRange(e.k.1, range) && Able(WorkAt(a, e.k), e, range)
      && Becomes(a, b, root, e.k, After(WorkAt(a, e.k), e, range))
  }

  ghost predicate Run(states: seq<State>, events: seq<Event>, root: Path, range: Range) {
    && |states| == |events| + 1 && states[0] == State(map[], map[])
    && forall i | 0 <= i < |events| :: Moves(states[i], events[i], states[i + 1], root, range)
  }

  /** What an event makes of a debt. */
  function OwedAfter(e: Event, k: Key, owed: multiset<LogRecord>): multiset<LogRecord> {
    match e
    case Flush(batch, c, done) => if k in done then owed + multiset(RowsFor(batch, k, c)) else owed
    case Purge(cutoff) => if Before(k.1, cutoff) then multiset{} else owed
    case _ => owed
  }

  /** What the directory of `k` owes its readers: the rows flushed to it since its last purge. */
  function Owed(events: seq<Event>, k: Key): multiset<LogRecord> {
    if events == [] then multiset{}
    else OwedAfter(events[|events| - 1], k, Owed(events[..|events| - 1], k))
  }

  /** The directory of `k` is where its work says, and that work keeps `owed`. */
  ghost predicate Holds(st: State, root: Path, k: Key, owed: multiset<LogRecord>) {
    var w := WorkAt(st, k);
    Good(w) && View(st.store, DirOf(root, k)) == DirNow(w) && Visible(BaseOf(w)) == owed
  }

  /** The invariant, before and after each event. */
  ghost predicate Sound(st: State, root: Path, range: Range, owed: Key -> multiset<LogRecord>) {
    Placed(st.store, root, range) && forall k: Key | InRange(k.1, range) :: Holds(st, root, k, owed(k))
  }

  // ----------------------------------------------------------------- frames

  lemma OtherViews(a: Store, b: Store, dir: Path, other: Path)
    requires OnlyIn(a, b, dir) && dir != other && |dir| == |other|
    ensures View(b, other) == View(a, other)
  {
    forall n
      ensures (other + [n] in b <==> other + [n] in a) && (other + [n] in b ==> b[other + [n]] == a[other + [n]])
    {
      assert (other + [n])[..|dir|] == other;
    }
  }

  lemma OtherDirs(a: State, b: State, root: Path, k: Key, w: Work, j: Key, range: Range)
    requires FitsI32(range) && InRange(k.1, range) && InRange(j.1, range) && j != k
    requires Becomes(a, b, root, k, w)
    ensures View(b.store, DirOf(root, j)) == View(a.store, DirOf(root, j)) && WorkAt(b, j) == WorkAt(a, j)
  {
    DirComponents(root, k);
    DirComponents(root, j);
    hide DirOf, DayDir, InRange, View, OnlyIn, DirNow;
    if DirOf(root, j) == DirOf(root, k) {
      DirsDiffer(root, j, k, range);
    }
    OtherViews(a.store, b.store, DirOf(root, k), DirOf(root, j));
  }

  /** A change of one partition that keeps its debt keeps every other one's. */
  lemma OneBecomes(a: State, b: State, root: Path, range: Range, k: Key, w: Work, owed: Key -> multiset<LogRecord>)
    requires FitsI32(range) && InRange(k.1, range) && Sound(a, root, range, owed) && Becomes(a, b, root, k, w)
    requires Good(w) && Visible(BaseOf(w)) == owed(k) && Placed(b.store, root, range)
    ensures Sound(b, root, range, owed)
  {
    hide Good, Visible, View, DirNow, OnlyIn, DirOf, InRange, Placed, BaseOf;
    forall j: Key | InRange(j.1, range) ensures Holds(b, root, j, owed(j)) {
      assert Holds(a, root, j, owed(j));
      if j != k {
        OtherDirs(a, b, root, k, w, j, range);
      }
    }
  }

  /** And one that makes up no rows keeps them in place. */
  lemma DrawsPlaced(a: State, b: State, root: Path, range: Range, k: Key, w: Work)
    requires FitsI32(range) && InRange(k.1, range) && Placed(a.store, root, range) && Becomes(a, b, root, k, w)
    requires RowsFrom(DirNow(w), View(a.store, DirOf(root, k)))
    ensures Placed(b.store, root, range)
  {
    hide View, DirNow, RowsFrom, DirOf, InRange, Placed;
    CompactionKeepsPlaced(a.store, b.store, root, k, range);
  }

  // ------------------------------------------------------------- each event

  lemma StrayKeeps(a: State, b: State, root: Path, range: Range, k: Key, name: string, file: File,
                   owed: Key -> multiset<LogRecord>)
    requires FitsI32(range) && Sound(a, root, range, owed) && Moves(a, Stray(k, name, file), b, root, range)
    ensures Sound(b, root, range, owed)
  {
    var w := WorkAt(a, k);
    hide Good, Visible, View, OnlyIn, DirOf, InRange, Placed, CanStray, BelongsTo, Sound, Strayed, DirNow, BaseOf,
      WorkAt;
    HoldsAt(a, root, range, owed, k);
    StrayIsGood(w, name, file);
    StrayPlaced(a, b, root, range, k, name, file) by { SoundIsPlaced(a, root, range, owed); }
    OneBecomes(a, b, root, range, k, Strayed(w, name, file), owed);
  }

  lemma HoldsAt(st: State, root: Path, range: Range, owed: Key -> multiset<LogRecord>, k: Key)
    requires Sound(st, root, range, owed) && InRange(k.1, range)
    ensures Holds(st, root, k, owed(k))
  {
    hide Holds, InRange;
  }

  lemma SoundIsPlaced(st: State, root: Path, range: Range, owed: Key -> multiset<LogRecord>)
    requires Sound(st, root, range, owed)
    ensures Placed(st.store, root, range)
  {
    hide Holds, Placed;
  }

  lemma StrayPlaced(a: State, b: State, root: Path, range: Range, k: Key, name: string, file: File)
    requires FitsI32(range) && InRange(k.1, range) && Placed(a.store, root, range)
    requires forall r | r in file.rows :: BelongsTo(r, k, range)
    requires OnlyIn(a.store, b.store, DirOf(root, k))
    requires View(b.store, DirOf(root, k)) == View(a.store, DirOf(root, k))[name := file]
    ensures Placed(b.store, root, range)
  {
    DirComponents(root, k);
    hide DirOf, DayDir, BelongsTo, InRange, View;
    var dir := DirOf(root, k);
    forall p | p in b.store ensures exists j: Key :: PlacedUnder(p, b.store[p].rows, root, j, range) {
      if |p| == |dir| + 1 && p[..|dir|] == dir {
        ViewHas(b.store, dir, p);
        if p[|dir|] != name {
          FileInView(a.store, root, k, p[|dir|], range);
        }
        assert PlacedUnder(p, b.store[p].rows, root, k, range);
      } else {
        assert exists j: Key :: PlacedUnder(p, a.store[p].rows, root, j, range);
      }
    }
  }

  lemma RecoverKeeps(a: State, b: State, root: Path, range: Range, k: Key, listing: seq<string>,
                     owed: Key -> multiset<LogRecord>)
    requires FitsI32(range) && Sound(a, root, range, owed) && Moves(a, Recover(k, listing), b, root, range)
    ensures Sound(b, root, range, owed)
  {
    var d := DirNow(WorkAt(a, k));
    var w := Idle(ApplyAll(d, RecoverOps(listing)), map[]);
    hide Visible, View, OnlyIn, DirOf, InRange, Placed, Sound, RecoverOps, Clean, Good, DirNow, Harmless, Enumerates,
      WorkAt;
    HoldsAt(a, root, range, owed, k);
    RecoveredIsGood(WorkAt(a, k), listing);
    CleanIsGood(ApplyAll(d, RecoverOps(listing)));
    RecoveryStaysInPlace(d, listing, |RecoverOps(listing)|);
    TakeAll(RecoverOps(listing));
    DrawsPlaced(a, b, root, range, k, w) by { SoundIsPlaced(a, root, range, owed); }
    OneBecomes(a, b, root, range, k, w, owed);
  }

  lemma CleanIsGood(base: Directory)
    requires Clean(base)
    ensures Good(Idle(base, map[])) && DirNow(Idle(base, map[])) == base
  {
    NoneBeside(base);
  }

  lemma BeginIsGood(base: Directory, parts: Directory, m: Plan)
    requires Good(Idle(base, parts)) && Planned(base, m) && m.partial.rows <= m.merged.rows && m.part !in parts
    ensures var w := Sweeping(m, Begin(base), parts);
            Good(w) && DirNow(w) == DirNow(Idle(base, parts)) && BaseOf(w) == base
  {
    hide Planned, HasSuffix;
  }

  lemma SameRowsFrom(d: Directory)
    ensures RowsFrom(d, d)
  {
  }

  lemma MergeKeeps(a: State, b: State, root: Path, range: Range, k: Key, m: Plan, owed: Key -> multiset<LogRecord>)
    requires FitsI32(range) && Sound(a, root, range, owed) && Moves(a, Merge(k, m), b, root, range)
    ensures Sound(b, root, range, owed)
  {
    var base, parts := WorkAt(a, k).base, WorkAt(a, k).parts;
    var w := Sweeping(m, Begin(base), parts);
    hide Visible, View, Becomes, DirOf, InRange, Placed, Sound, Planned, Good, RowsFrom, DirNow, Begin;
    HoldsAt(a, root, range, owed, k);
    BeginIsGood(base, parts, m);
    SameRowsFrom(DirNow(w));
    DrawsPlaced(a, b, root, range, k, w) by { SoundIsPlaced(a, root, range, owed); }
    OneBecomes(a, b, root, range, k, w, owed);
  }

  lemma OperateKeeps(a: State, b: State, root: Path, range: Range, k: Key, owed: Key -> multiset<LogRecord>)
    requires FitsI32(range) && Sound(a, root, range, owed) && Moves(a, Operate(k), b, root, range)
    ensures Sound(b, root, range, owed)
  {
    var w := WorkAt(a, k);
    hide Visible, View, OnlyIn, DirOf, InRange, Placed, Sound, Good, Ops, Operated, BaseOf, Apply, WorkAt, RowsFrom;
    HoldsAt(a, root, range, owed, k);
    OperationIsGood(w.m, w.s, w.parts);
    OperationDraws(w.m, w.s, w.parts);
    DrawsPlaced(a, b, root, range, k, Operated(w)) by { SoundIsPlaced(a, root, range, owed); }
    OneBecomes(a, b, root, range, k, Operated(w), owed);
  }

  // ------------------------------------------------------------------- flushes

  /** Under names not in use, chunks only come in. */
  lemma OnlyAdds(store: Store, base: Store, batch: seq<LogRecord>, done: set<Key>, root: Path, c: Clock)
    requires HasChunks(store, base, batch, done, root, c) && base.Keys !! Storage.Written(root, done, c.nanos)
    ensures store.Keys == base.Keys + ChunkPaths(root, done, c.nanos)
    ensures forall p | p in base :: store[p] == base[p]
  {
    hide ChunkPath, PartPath, RowsFor;
  }

  // Maps, name by name.

  lemma MapWith<K>(d: map<K, File>, e: map<K, File>, name: K, file: File)
    requires name in d && d[name] == file && forall n :: n in d <==> n in e || n == name
    requires forall n | n in e && n != name :: d[n] == e[n]
    ensures d == e[name := file]
  {
  }

  lemma ViewAt(store: Store, dir: Path, n: string)
    ensures n in View(store, dir) <==> dir + [n] in store
    ensures n in View(store, dir) ==> View(store, dir)[n] == store[dir + [n]]
  {
  }

  lemma MapSame<K>(d: map<K, File>, e: map<K, File>)
    requires forall n :: n in d <==> n in e
    requires forall n | n in e :: d[n] == e[n]
    ensures d == e
  {
  }

  lemma MinusOther<K>(d: map<K, File>, n: K)
    requires n !in d
    ensures d - {n} == d
  {
  }

  lemma FlushedAt(a: Store, b: Store, batch: seq<LogRecord>, c: Clock, done: set<Key>, root: Path, k: Key, name: string)
    requires Sane(c) && HasChunks(b, a, batch, done, root, c) && a.Keys !! Storage.Written(root, done, c.nanos)
    requires InRange(k.1, c.range) && forall j | j in done :: InRange(j.1, c.range)
    ensures var p := DirOf(root, k) + [name];
            && (p in b <==> p in a || (k in done && name == ChunkName(c.nanos)))
            && (p in a ==> b[p] == a[p])
  {
    OnlyAdds(b, a, batch, done, root, c);
    hide DirOf, ChunkName, RowsFor, InRange, Sane, HasChunks, Storage.Written, PartPath;
    if DirOf(root, k) + [name] in ChunkPaths(root, done, c.nanos) {
      var j :| j in done && DirOf(root, k) + [name] == ChunkPath(root, j, c.nanos);
      SameChunkPath(root, k, j, name, c);
    }
    if k in done && name == ChunkName(c.nanos) {
      assert ChunkPath(root, k, c.nanos) in ChunkPaths(root, done, c.nanos);
    }
  }

  lemma FlushedView(a: Store, b: Store, batch: seq<LogRecord>, c: Clock, done: set<Key>, root: Path, k: Key)
    requires Sane(c) && HasChunks(b, a, batch, done, root, c) && a.Keys !! Storage.Written(root, done, c.nanos)
    requires InRange(k.1, c.range) && forall j | j in done :: InRange(j.1, c.range)
    ensures k in done ==> ChunkPath(root, k, c.nanos) in b
                          && View(b, DirOf(root, k))
                             == View(a, DirOf(root, k))[ChunkName(c.nanos) := b[ChunkPath(root, k, c.nanos)]]
    ensures k !in done ==> View(b, DirOf(root, k)) == View(a, DirOf(root, k))
  {
    var dir, name := DirOf(root, k), ChunkName(c.nanos);
    assert ChunkPath(root, k, c.nanos) == dir + [name];
    hide *;
    FlushedAt(a, b, batch, c, done, root, k, name);
    ViewAt(b, dir, name);
    forall n: string
      ensures n in View(b, dir) <==> n in View(a, dir) || (k in done && n == name)
      ensures n in View(a, dir) ==> n in View(b, dir) && View(b, dir)[n] == View(a, dir)[n]
    {
      FlushedAt(a, b, batch, c, done, root, k, n);
      ViewAt(a, dir, n);
      ViewAt(b, dir, n);
    }
    if k in done {
      MapWith(View(b, dir), View(a, dir), name, b[dir + [name]]);
    } else {
      MapSame(View(b, dir), View(a, dir));
    }
  }

  lemma SameChunkPath(root: Path, k: Key, j: Key, name: string, c: Clock)
    requires Sane(c) && InRange(k.1, c.range) && InRange(j.1, c.range)
    requires DirOf(root, k) + [name] == ChunkPath(root, j, c.nanos)
    ensures j == k && name == ChunkName(c.nanos)
  {
    ChunkComponents(root, j, c.nanos);
    DirComponents(root, k);
    hide DirOf, ChunkName, InRange;
    assert (DirOf(root, k) + [name])[..|root| + 4] == DirOf(root, k);
    DirsDiffer(root, j, k, c.range);
  }

  lemma FlushedWork(a: State, b: State, batch: seq<LogRecord>, c: Clock, done: set<Key>, root: Path, k: Key)
    requires Flushes(a, b, batch, c, done, root)
    ensures k !in done ==> WorkAt(b, k) == WorkAt(a, k)
    ensures k in done ==>
              && ChunkPath(root, k, c.nanos) in b.store && CanArrive(WorkAt(a, k), ChunkName(c.nanos))
              && b.store[ChunkPath(root, k, c.nanos)].rows == RowsFor(batch, k, c)
              && WorkAt(b, k) == Arrived(WorkAt(a, k), ChunkName(c.nanos), b.store[ChunkPath(root, k, c.nanos)])
  {
    hide ChunkPath, ChunkName, RowsFor, CanArrive, Keys, Arrived, Sane;
  }

  lemma FlushedViews(a: State, b: State, batch: seq<LogRecord>, c: Clock, done: set<Key>, root: Path, k: Key)
    requires Flushes(a, b, batch, c, done, root) && InRange(k.1, c.range)
    ensures k in done ==> View(b.store, DirOf(root, k))
                          == View(a.store, DirOf(root, k))[ChunkName(c.nanos) := b.store[ChunkPath(root, k, c.nanos)]]
    ensures k !in done ==> View(b.store, DirOf(root, k)) == View(a.store, DirOf(root, k))
  {
    KeysAreInRange(batch, c);
    hide ChunkPath, ChunkName, RowsFor, CanArrive, Keys, Arrived, Sane, View, DirOf, InRange;
    FlushedView(a.store, b.store, batch, c, done, root, k);
  }

  lemma FlushKeepsOne(a: State, b: State, root: Path, batch: seq<LogRecord>, c: Clock, done: set<Key>, k: Key,
                      owed: multiset<LogRecord>)
    requires Flushes(a, b, batch, c, done, root) && InRange(k.1, c.range) && Holds(a, root, k, owed)
    ensures Holds(b, root, k, if k in done then owed + multiset(RowsFor(batch, k, c)) else owed)
  {
    FlushedWork(a, b, batch, c, done, root, k);
    FlushedViews(a, b, batch, c, done, root, k);
    hide ChunkPath, View, DirOf, ChunkName, RowsFor, InRange, Good, Visible, DirNow, BaseOf, CanArrive, Arrived,
      Flushes,
      WorkAt;
    if k in done {
      ArrivalIsGood(WorkAt(a, k), ChunkName(c.nanos), b.store[ChunkPath(root, k, c.nanos)]);
    }
  }

  // -------------------------------------------------------------------- purges

  lemma PurgedView(a: Store, b: Store, root: Path, cutoff: Date, range: Range, k: Key)
    requires FitsI32(range) && Placed(a, root, range) && InRange(k.1, range)
    requires Retention.Purged(a, b, root, cutoff, range, {})
    ensures View(b, DirOf(root, k)) == if Before(k.1, cutoff) then map[] else View(a, DirOf(root, k))
  {
    DirComponents(root, k);
    hide DirOf, DayDir, InRange, Before, Retention.Doomed, Placed;
    var dir := DirOf(root, k);
    forall n: string | dir + [n] in a ensures dir + [n] in b <==> !Before(k.1, cutoff) {
      FileHere(a, root, k, n, range);
      Retention.DoomedIff(a, root, cutoff, range, dir + [n], k);
    }
  }

  lemma FileHere(store: Store, root: Path, k: Key, name: string, range: Range)
    requires FitsI32(range) && Placed(store, root, range) && InRange(k.1, range) && DirOf(root, k) + [name] in store
    ensures PlacedUnder(DirOf(root, k) + [name], store[DirOf(root, k) + [name]].rows, root, k, range)
  {
    FileInView(store, root, k, name, range);
    DirComponents(root, k);
    hide DirOf, DayDir, InRange, BelongsTo, Placed;
    assert (DirOf(root, k) + [name])[..|root| + 4] == DirOf(root, k);
  }

  lemma PurgedWork(a: State, b: State, root: Path, cutoff: Date, range: Range, k: Key)
    requires Moves(a, Purge(cutoff), b, root, range)
    ensures WorkAt(b, k) == if Before(k.1, cutoff) then Idle(map[], map[]) else WorkAt(a, k)
    ensures Retention.Purged(a.store, b.store, root, cutoff, range, {})
  {
    hide Before, Retention.Purged;
  }

  lemma PurgeKeepsOne(a: State, b: State, root: Path, cutoff: Date, range: Range, k: Key, owed: multiset<LogRecord>)
    requires FitsI32(range) && Placed(a.store, root, range) && InRange(k.1, range)
    requires Moves(a, Purge(cutoff), b, root, range) && Holds(a, root, k, owed)
    ensures Holds(b, root, k, if Before(k.1, cutoff) then multiset{} else owed)
  {
    PurgedWork(a, b, root, cutoff, range, k);
    NothingShown();
    hide View, DirOf, InRange, Before, Visible, Retention.Purged, Placed, Good, DirNow, WorkAt, Moves;
    PurgedView(a.store, b.store, root, cutoff, range, k);
  }

  lemma NothingShown()
    ensures Visible(map[]) == multiset{} && Good(Idle(map[], map[])) && DirNow(Idle(map[], map[])) == map[]
  {
    assert Published(map[]) == {};
    NoneBeside<string>(map[]);
  }

  // ------------------------------------------------------------------ any event

  lemma FlushKeeps(a: State, b: State, root: Path, range: Range, batch: seq<LogRecord>, c: Clock, done: set<Key>,
                   owed: Key -> multiset<LogRecord>, next: Key -> multiset<LogRecord>)
    requires Sound(a, root, range, owed) && Moves(a, Flush(batch, c, done), b, root, range)
    requires forall k: Key :: next(k) == OwedAfter(Flush(batch, c, done), k, owed(k))
    ensures Sound(b, root, range, next)
  {
    KeysAreInRange(batch, c);
    SoundIsPlaced(a, root, range, owed);
    hide Holds, InRange, Placed, HasChunks, Keys, Sane, RowsFor, WorkAt, Arrived, CanArrive, ChunkPath;
    FlushPlaces(b.store, a.store, batch, done, root, c);
    forall k: Key | InRange(k.1, range) ensures Holds(b, root, k, next(k)) {
      FlushKeepsOne(a, b, root, batch, c, done, k, owed(k));
    }
  }

  lemma PurgeKeeps(a: State, b: State, root: Path, range: Range, cutoff: Date,
                   owed: Key -> multiset<LogRecord>, next: Key -> multiset<LogRecord>)
    requires FitsI32(range) && Sound(a, root, range, owed) && Moves(a, Purge(cutoff), b, root, range)
    requires forall k: Key :: next(k) == OwedAfter(Purge(cutoff), k, owed(k))
    ensures Sound(b, root, range, next)
  {
    SoundIsPlaced(a, root, range, owed);
    hide Holds, InRange, Placed, Before, WorkAt, Retention.Purged;
    PurgeKeepsPlaced(a.store, b.store, root, cutoff, range, {});
    forall k: Key | InRange(k.1, range) ensures Holds(b, root, k, next(k)) {
      PurgeKeepsOne(a, b, root, cutoff, range, k, owed(k));
    }
  }

  lemma SoundSame(st: State, root: Path, range: Range, f: Key -> multiset<LogRecord>, g: Key -> multiset<LogRecord>)
    requires Sound(st, root, range, f) && forall k: Key :: f(k) == g(k)
    ensures Sound(st, root, range, g)
  {
    hide Holds, InRange, Placed;
  }

  lemma MoveKeeps(a: State, e: Event, b: State, root: Path, range: Range,
                  owed: Key -> multiset<LogRecord>, next: Key -> multiset<LogRecord>)
    requires FitsI32(range) && Sound(a, root, range, owed) && Moves(a, e, b, root, range)
    requires forall k: Key :: next(k) == OwedAfter(e, k, owed(k))
    ensures Sound(b, root, range, next)
  {
    if e.Flush? {
      hide *;
      FlushKeeps(a, b, root, range, e.batch, e.c, e.done, owed, next);
    } else if e.Purge? {
      hide *;
      PurgeKeeps(a, b, root, range, e.cutoff, owed, next);
    } else {
      assert forall k: Key :: next(k) == owed(k);
      hide *;
      match e {
        case Stray(k, name, file) => StrayKeeps(a, b, root, range, k, name, file, owed);
        case Recover(k, listing) => RecoverKeeps(a, b, root, range, k, listing, owed);
        case Merge(k, m) => MergeKeeps(a, b, root, range, k, m, owed);
        case Operate(k) => OperateKeeps(a, b, root, range, k, owed);
      }
      SoundSame(b, root, range, owed, next);
    }
  }

  // --------------------------------------------------------------- over a run

  lemma {:induction false} SoundThroughout(states: seq<State>, events: seq<Event>, root: Path, range: Range, i: nat)
    requires FitsI32(range) && Run(states, events, root, range) && i <= |events|
    ensures Sound(states[i], root, range, k => Owed(events[..i], k))
  {
    if i == 0 {
      EmptyIsSound(root, range);
      hide Sound;
      SoundSame(states[0], root, range, k => multiset{}, k => Owed(events[..0], k));
    } else {
      SoundThroughout(states, events, root, range, i - 1);
      OwedNext(events, i);
      hide Sound, Moves, OwedAfter, Owed;
      MoveKeeps(states[i - 1], events[i - 1], states[i], root, range,
                k => Owed(events[..i - 1], k), k => Owed(events[..i], k));
    }
  }

  lemma EmptyIsSound(root: Path, range: Range)
    ensures Sound(State(map[], map[]), root, range, k => multiset{})
  {
    NothingShown();
    hide Visible, Good, DirNow, DirOf, InRange;
    forall k: Key | InRange(k.1, range) ensures Holds(State(map[], map[]), root, k, multiset{}) {
      assert View(map[], DirOf(root, k)) == map[];
    }
  }

  lemma OwedNext(events: seq<Event>, i: nat)
    requires 0 < i <= |events|
    ensures forall k: Key :: Owed(events[..i], k) == OwedAfter(events[i - 1], k, Owed(events[..i - 1], k))
  {
    assert events[..i][..i - 1] == events[..i - 1];
  }

  /** At every moment of every run, what a scan of a directory shows is among what
      it owes: no row is shown twice, and none that was purged or never published. */
  lemma NothingShownTwice(states: seq<State>, events: seq<Event>, root: Path, range: Range, i: nat, k: Key)
    requires FitsI32(range) && Run(states, events, root, range) && i <= |events| && InRange(k.1, range)
    ensures Visible(View(states[i].store, DirOf(root, k))) <= Owed(events[..i], k)
  {
    SoundThroughout(states, events, root, range, i);
    hide Run, Good, Visible, View, DirOf, InRange, Placed, DirNow, BaseOf, WorkAt, Owed, FitsI32;
    assert Holds(states[i], root, k, Owed(events[..i], k));
    ShowsAtMost(WorkAt(states[i], k));
  }

  /** Whatever flushes, failed flushes, sweeps cut short and purges came before, a
      directory shows exactly the rows flushed to it since its last purge, each once,
      except between the first hiding and the publishing of a merge. */
  lemma StoreShowsWhatIsOwed(states: seq<State>, events: seq<Event>, root: Path, range: Range, i: nat, k: Key)
    requires FitsI32(range) && Run(states, events, root, range) && i <= |events| && InRange(k.1, range)
    requires Settled(WorkAt(states[i], k))
    ensures Visible(View(states[i].store, DirOf(root, k))) == Owed(events[..i], k)
  {
    SoundThroughout(states, events, root, range, i);
    hide Run, Good, Visible, View, DirOf, InRange, Placed, Owed, FitsI32, WorkAt, DirNow, BaseOf, Settled;
    assert Holds(states[i], root, k, Owed(events[..i], k));
    SettledShows(WorkAt(states[i], k));
  }

  /** That is so, and the directory is clean, after each recovery pass that ran to its end. */
  lemma RecoveryShowsWhatIsOwed(states: seq<State>, events: seq<Event>, root: Path, range: Range, i: nat, k: Key,
                                listing: seq<string>)
    requires FitsI32(range) && Run(states, events, root, range) && i < |events| && InRange(k.1, range)
    requires events[i] == Recover(k, listing)
    ensures Visible(View(states[i + 1].store, DirOf(root, k))) == Owed(events[..i + 1], k)
    ensures Clean(View(states[i + 1].store, DirOf(root, k)))
  {
    assert Moves(states[i], events[i], states[i + 1], root, range);
    hide *;
    RecoverLeavesIdle(states[i], states[i + 1], root, range, k, listing);
    SoundThroughout(states, events, root, range, i + 1);
    CleanWhenIdle(states[i + 1], root, range, k => Owed(events[..i + 1], k), k);
    IdleIsSettled(WorkAt(states[i + 1], k));
    StoreShowsWhatIsOwed(states, events, root, range, i + 1, k);
  }

  lemma IdleIsSettled(w: Work)
    requires w.Idle?
    ensures Settled(w)
  {
  }

  lemma RecoverLeavesIdle(a: State, b: State, root: Path, range: Range, k: Key, listing: seq<string>)
    requires Moves(a, Recover(k, listing), b, root, range)
    ensures WorkAt(b, k).Idle? && WorkAt(b, k).parts == map[]
  {
    hide View, OnlyIn, DirOf, InRange, DirNow, RecoverOps, Harmless, Enumerates;
  }

  lemma CleanWhenIdle(st: State, root: Path, range: Range, owed: Key -> multiset<LogRecord>, k: Key)
    requires Sound(st, root, range, owed) && InRange(k.1, range)
    requires WorkAt(st, k).Idle? && WorkAt(st, k).parts == map[]
    ensures Clean(View(st.store, DirOf(root, k)))
  {
    HoldsAt(st, root, range, owed, k);
    NoneBeside(WorkAt(st, k).base);
    hide View, DirOf, InRange, Visible, Clean, Sound, WorkAt, AreParts;
  }

  /** No purge among these events reaches the day of `k`. */
  predicate Spared(events: seq<Event>, k: Key) {
    forall e | e in events && e.Purge? :: !Before(k.1, e.cutoff)
  }

  lemma {:induction false} OwedGrows(events: seq<Event>, k: Key, i: nat)
    requires i <= |events| && Spared(events[i..], k)
    ensures Owed(events[..i], k) <= Owed(events, k)
    decreases |events| - i
  {
    if i == |events| {
      assert events[..i] == events;
    } else {
      hide Before, RowsFor;
      assert events[i] == events[i..][0];
      assert forall e | e in events[i + 1..] :: e in events[i..];
      OwedGrows(events, k, i + 1);
      OwedNext(events, i + 1);
    }
  }

  lemma FlushedIsOwed(batch: seq<LogRecord>, c: Clock, done: set<Key>, k: Key, owed: multiset<LogRecord>, r: LogRecord)
    requires r in batch && KeyOf(r, c) == k && k in done
    ensures r in OwedAfter(Flush(batch, c, done), k, owed)
  {
    KeptOne(batch, k, c);
    KeptMembers(batch, {k}, c);
    hide KeyOf, RowsFor, Kept;
    assert r in RowsFor(batch, k, c);
  }

  lemma FlushedKeyInRange(a: State, e: Event, b: State, root: Path, range: Range, r: LogRecord)
    requires e.Flush? && Moves(a, e, b, root, range)
    ensures InRange(KeyOf(r, e.c).1, range)
  {
    KeyIsInRange(r, e.c);
  }

  lemma Slices<T>(s: seq<T>, j: nat, i: nat)
    requires j <= i <= |s|
    ensures s[..i][..j] == s[..j] && s[..i][j..] == s[j..i]
  {
  }

  /** A row once flushed is shown, except between the first hiding and the publishing of
      a merge of its directory, until a purge reaches its day. */
  lemma FlushedRowIsShown(states: seq<State>, events: seq<Event>, root: Path, range: Range, j: nat, i: nat, k: Key,
                          r: LogRecord)
    requires FitsI32(range) && Run(states, events, root, range) && j < i <= |events|
    requires events[j].Flush? && r in events[j].batch && KeyOf(r, events[j].c) == k && k in events[j].done
    requires Settled(WorkAt(states[i], k)) && Spared(events[j + 1..i], k)
    ensures r in Visible(View(states[i].store, DirOf(root, k)))
  {
    assert Moves(states[j], events[j], states[j + 1], root, range);
    hide *;
    FlushedKeyInRange(states[j], events[j], states[j + 1], root, range, r);
    FlushedIsOwed(events[j].batch, events[j].c, events[j].done, k, Owed(events[..j], k), r);
    OwedNext(events, j + 1);
    Slices(events, j + 1, i);
    OwedGrows(events[..i], k, j + 1);
    StoreShowsWhatIsOwed(states, events, root, range, i, k);
  }

  /** A flush that fails part way, whatever merge is under way there, is a flush of the
      keys it finished and then a stray `.part`. */
  lemma FailedFlushIsTwoMoves(a: State, after: Store, root: Path, range: Range, batch: seq<LogRecord>, c: Clock,
                              done: set<Key>, k: Key, owed: Key -> multiset<LogRecord>)
    returns (mid: State, b: State)
    requires FitsI32(range) && Sound(a, root, range, owed) && c.range == range && Sane(c) && done <= Keys(batch, c)
    requires forall j | j in done :: CanArrive(WorkAt(a, j), ChunkName(c.nanos))
    requires k !in done && CanStray(WorkAt(a, k), ChunkName(c.nanos) + ".part")
    requires PartlyFlushed(after, a.store, batch, done, Some(k), root, c)
    requires a.store.Keys !! Storage.Written(root, done + {k}, c.nanos)
    ensures b.store == after && Moves(a, Flush(batch, c, done), mid, root, range)
    ensures Moves(mid, Stray(k, ChunkName(c.nanos) + ".part", after[PartPath(root, k, c.nanos)]), b, root, range)
  {
    var temp, name := PartPath(root, k, c.nanos), ChunkName(c.nanos) + ".part";
    PartlyIs(after, a.store, batch, done, k, root, c);
    mid := State(after - {temp}, Landed(a, after - {temp}, done, root, c));
    b := State(after, mid.work[k := Strayed(WorkAt(a, k), name, after[temp])]);
    HoldsAt(a, root, range, owed, k) by { KeysAreInRange(batch, c); }
    FlushMoves(a, mid, root, range, batch, c, done);
    hide *;
    FlushKeepsOne(a, mid, root, batch, c, done, k, owed(k)) by { KeysAreInRange(batch, c); }
    FlushedWork(a, mid, batch, c, done, root, k);
    PartLands(mid, b, root, range, batch, c, k, WorkAt(a, k), after[temp], owed(k)) by { KeysAreInRange(batch, c); }
  }

  lemma FlushMoves(a: State, b: State, root: Path, range: Range, batch: seq<LogRecord>, c: Clock, done: set<Key>)
    requires c.range == range && Sane(c) && done <= Keys(batch, c)
             && a.store.Keys !! Storage.Written(root, done, c.nanos)
    requires forall j | j in done :: CanArrive(WorkAt(a, j), ChunkName(c.nanos))
    requires HasChunks(b.store, a.store, batch, done, root, c)
    requires b.work == Landed(a, b.store, done, root, c)
    ensures Moves(a, Flush(batch, c, done), b, root, range) && Flushes(a, b, batch, c, done, root)
  {
    hide HasChunks, Keys, CanArrive, ChunkName, Sane, Landed, Storage.Written, WorkAt;
  }

  /** A failed flush under names not in use, as its chunks and its `.part`. */
  lemma PartlyIs(after: Store, base: Store, batch: seq<LogRecord>, done: set<Key>, k: Key, root: Path, c: Clock)
    requires PartlyFlushed(after, base, batch, done, Some(k), root, c)
    requires base.Keys !! Storage.Written(root, done + {k}, c.nanos)
    ensures var temp := PartPath(root, k, c.nanos);
            && k in Keys(batch, c) && temp in after
            && (after[temp].rows == [] || after[temp].rows == RowsFor(batch, k, c))
            && HasChunks(after - {temp}, base, batch, done, root, c)
            && base.Keys !! Storage.Written(root, done, c.nanos)
  {
    NotInUse(base, done, k, root, c);
    hide HasChunks, Keys, RowsFor, PartPath, Storage.Written;
    MinusOther(base, PartPath(root, k, c.nanos));
  }

  lemma NotInUse(store: Store, done: set<Key>, k: Key, root: Path, c: Clock)
    requires store.Keys !! Storage.Written(root, done + {k}, c.nanos)
    ensures store.Keys !! Storage.Written(root, done, c.nanos) && PartPath(root, k, c.nanos) !in store
  {
    OneMoreKey(root, done, k, c.nanos);
    hide ChunkPaths, PartPaths, PartPath, ChunkPath;
    assert PartPath(root, k, c.nanos) in Storage.Written(root, done + {k}, c.nanos);
  }

  lemma PartLands(mid: State, b: State, root: Path, range: Range, batch: seq<LogRecord>, c: Clock, k: Key, w: Work,
                  file: File, owed: multiset<LogRecord>)
    requires c.range == range && Sane(c) && InRange(k.1, range)
    requires WorkAt(mid, k) == w && CanStray(w, ChunkName(c.nanos) + ".part") && Holds(mid, root, k, owed)
    requires file.rows == [] || file.rows == RowsFor(batch, k, c)
    requires PartPath(root, k, c.nanos) in b.store && b.store[PartPath(root, k, c.nanos)] == file
    requires mid.store == b.store - {PartPath(root, k, c.nanos)}
    requires b.work == mid.work[k := Strayed(w, ChunkName(c.nanos) + ".part", file)]
    ensures Moves(mid, Stray(k, ChunkName(c.nanos) + ".part", file), b, root, range)
  {
    PartBelongs(batch, k, c, root, file.rows);
    PartView(mid, b.store, root, c, k, w, owed);
    hide *;
    StrayMoves(mid, b, root, range, k, w, ChunkName(c.nanos) + ".part", file);
  }

  lemma StrayMoves(a: State, b: State, root: Path, range: Range, k: Key, w: Work, name: string, file: File)
    requires InRange(k.1, range) && WorkAt(a, k) == w && CanStray(w, name)
    requires forall r | r in file.rows :: BelongsTo(r, k, range)
    requires OnlyIn(a.store, b.store, DirOf(root, k))
    requires View(b.store, DirOf(root, k)) == DirNow(Strayed(w, name, file))
    requires b.work == a.work[k := Strayed(w, name, file)]
    ensures Moves(a, Stray(k, name, file), b, root, range)
  {
    hide CanStray, DirOf, InRange, BelongsTo, View, OnlyIn, WorkAt, DirNow, Strayed;
  }

  lemma PartView(mid: State, after: Store, root: Path, c: Clock, k: Key, w: Work, owed: multiset<LogRecord>)
    requires WorkAt(mid, k) == w && CanStray(w, ChunkName(c.nanos) + ".part") && Holds(mid, root, k, owed)
    requires PartPath(root, k, c.nanos) in after && mid.store == after - {PartPath(root, k, c.nanos)}
    ensures OnlyIn(mid.store, after, DirOf(root, k))
    ensures View(after, DirOf(root, k))
            == DirNow(Strayed(w, ChunkName(c.nanos) + ".part", after[PartPath(root, k, c.nanos)]))
  {
    var dir, name := DirOf(root, k), ChunkName(c.nanos) + ".part";
    assert PartPath(root, k, c.nanos) == dir + [name];
    hide CanStray, Visible, DirOf, ChunkName, PartPath, Good, View, OnlyIn, BaseOf, WorkAt, DirNow, Strayed;
    StrayIsGood(w, name, after[dir + [name]]);
    ViewWith(mid.store, after, dir, name);
    OnlyThere(mid.store, after, dir, name);
  }

  lemma PartBelongs(batch: seq<LogRecord>, k: Key, c: Clock, root: Path, rows: seq<LogRecord>)
    requires Sane(c) && InRange(k.1, c.range) && (rows == [] || rows == RowsFor(batch, k, c))
    ensures forall r | r in rows :: BelongsTo(r, k, c.range)
  {
    RowsForBelong(batch, k, root, c);
    hide Sane, InRange, BelongsTo, RowsFor, PartPath, ChunkPath;
  }

  lemma ViewWith(a: Store, b: Store, dir: Path, name: string)
    requires dir + [name] in b && a == b - {dir + [name]}
    ensures View(b, dir) == View(a, dir)[name := b[dir + [name]]]
  {
    hide View;
    ViewAt(b, dir, name);
    forall n: string
      ensures (n in View(b, dir) <==> n in View(a, dir) || n == name)
      ensures n != name && n in View(a, dir) ==> View(b, dir)[n] == View(a, dir)[n]
    {
      ViewAt(a, dir, n);
      ViewAt(b, dir, n);
      LastOf(dir, n);
      LastOf(dir, name);
    }
    MapWith(View(b, dir), View(a, dir), name, b[dir + [name]]);
  }

  lemma OnlyThere(a: Store, b: Store, dir: Path, name: string)
    requires dir + [name] in b && a == b - {dir + [name]}
    ensures OnlyIn(a, b, dir)
  {
    assert (dir + [name])[..|dir|] == dir;
  }

  lemma LastOf(dir: Path, n: string)
    ensures (dir + [n])[|dir|] == n
  {
  }

  // ------------------------------------------------ what a partition does, a store can

  predicate Below(p: Path, dir: Path) {
    |p| == |dir| + 1 && p[..|dir|] == dir
  }

  /** `store` with the files of `d` in `dir`, and no others there. */
  function Put(store: Store, dir: Path, d: Directory): Store {
    map p | p in store.Keys + (set n | n in d :: dir + [n]) && (Below(p, dir) ==> p[|dir|] in d) ::
      if Below(p, dir) then d[p[|dir|]] else store[p]
  }

  lemma BelowIs(dir: Path, n: string)
    ensures Below(dir + [n], dir) && (dir + [n])[|dir|] == n
  {
    LastOf(dir, n);
  }

  lemma PutAt(store: Store, dir: Path, d: Directory, n: string)
    ensures n in View(Put(store, dir, d), dir) <==> n in d
    ensures n in d ==> View(Put(store, dir, d), dir)[n] == d[n]
  {
    ViewAt(Put(store, dir, d), dir, n);
    BelowIs(dir, n);
    hide View, Below;
  }

  lemma PutChangesOnly(store: Store, dir: Path, d: Directory)
    ensures OnlyIn(store, Put(store, dir, d), dir)
  {
    var put := Put(store, dir, d);
    forall p | !Below(p, dir) ensures (p in store <==> p in put) && (p in store ==> store[p] == put[p]) {
      if n :| n in d && p == dir + [n] {
        BelowIs(dir, n);
      }
    }
  }

  /** Whatever its partition goes on to, some store follows. */
  lemma SomeStoreFollows(a: State, root: Path, k: Key, w: Work) returns (b: State)
    ensures Becomes(a, b, root, k, w)
  {
    var dir, d := DirOf(root, k), DirNow(w);
    b := State(Put(a.store, dir, d), a.work[k := w]);
    hide View, Put, DirOf, DirNow, OnlyIn;
    PutChangesOnly(a.store, dir, d);
    forall n: string ensures (n in View(b.store, dir) <==> n in d) && (n in d ==> View(b.store, dir)[n] == d[n]) {
      PutAt(a.store, dir, d, n);
    }
    MapSame(View(b.store, dir), d);
  }

  lemma LongerRun(states: seq<State>, events: seq<Event>, root: Path, range: Range, e: Event, b: State)
    requires Run(states, events, root, range) && Moves(states[|events|], e, b, root, range)
    ensures Run(states + [b], events + [e], root, range)
  {
    hide Moves;
    var longer, all := states + [b], events + [e];
    forall i | 0 <= i < |all| ensures Moves(longer[i], all[i], longer[i + 1], root, range) {
      if i < |events| {
        assert Moves(states[i], events[i], states[i + 1], root, range);
      }
    }
  }

  lemma LastOfRun(states: seq<State>, events: seq<Event>, root: Path, range: Range)
    requires Run(states, events, root, range)
    ensures |states| == |events| + 1
  {
    hide Moves;
  }

  lemma BecomesMoves(a: State, e: Event, b: State, root: Path, range: Range)
    requires !e.Flush? && !e.Purge? && InRange(e.k.1, range) && Able(WorkAt(a, e.k), e, range)
    requires Becomes(a, b, root, e.k, After(WorkAt(a, e.k), e, range))
    ensures Moves(a, e, b, root, range)
  {
    hide Able, After, Becomes, InRange, WorkAt;
  }

  /** A run can go on with whatever can happen in a partition: a stray `.part`, a
      recovery pass, the start of a merge, its next file operation. */
  lemma RunGoesOn(states: seq<State>, events: seq<Event>, root: Path, range: Range, e: Event) returns (b: State)
    requires Run(states, events, root, range) && !e.Flush? && !e.Purge?
    requires InRange(e.k.1, range) && Able(WorkAt(states[|events|], e.k), e, range)
    ensures Run(states + [b], events + [e], root, range)
  {
    hide *;
    LastOfRun(states, events, root, range);
    var a := states[|events|];
    b := SomeStoreFollows(a, root, e.k, After(WorkAt(a, e.k), e, range));
    BecomesMoves(a, e, b, root, range);
    LongerRun(states, events, root, range, e, b);
  }
}
