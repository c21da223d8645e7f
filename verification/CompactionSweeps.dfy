/** Compaction over the life of a partition: sweep after sweep, each cut short anywhere. */
module CompactionSweeps {
  import opened Seqs
  import opened Records
  import opened Directories
  import opened Compaction
  import opened CompactionSafety

  /** One sweep: a recovery pass that runs to its end over what `listing` shows,
      then as much of the merge `plan` as `acts` says, with arrivals in between. */
  datatype Sweep = Sweep(listing: seq<string>, plan: Plan, acts: seq<Act>)

  function Recovered(d: Directory, listing: seq<string>): Directory {
    ApplyAll(d, RecoverOps(listing))
  }

  ghost predicate Runnable(d: Directory, sweep: Sweep) {
    && Enumerates(sweep.listing, d)
    && Planned(Recovered(d, sweep.listing), sweep.plan)
    && Legal(Begin(Recovered(d, sweep.listing)), sweep.plan, sweep.acts)
  }

  ghost function Swept(d: Directory, sweep: Sweep): Merging
    requires Runnable(d, sweep)
  {
    Exec(Begin(Recovered(d, sweep.listing)), sweep.plan, sweep.acts)
  }

  ghost predicate AllRunnable(d: Directory, sweeps: seq<Sweep>)
    decreases |sweeps|
  {
    sweeps == [] || (Runnable(d, sweeps[0]) && AllRunnable(Swept(d, sweeps[0]).dir, sweeps[1..]))
  }

  ghost function After(d: Directory, sweeps: seq<Sweep>): Directory
    requires AllRunnable(d, sweeps)
    decreases |sweeps|
  {
    if sweeps == [] then d else After(Swept(d, sweeps[0]).dir, sweeps[1..])
  }

  /** The rows that arrived during a run. */
  function Arrivals(acts: seq<Act>): multiset<LogRecord>
    decreases |acts|
  {
    if acts == [] then multiset{}
    else (match acts[0] case Next => multiset{} case Arrive(_, file) => multiset(file.rows)) + Arrivals(acts[1..])
  }

  function AllArrivals(sweeps: seq<Sweep>): multiset<LogRecord>
    decreases |sweeps|
  {
    if sweeps == [] then multiset{} else Arrivals(sweeps[0].acts) + AllArrivals(sweeps[1..])
  }

  lemma ArriveAddsItsRows(d: Directory, name: string, file: File)
    requires IsParquet(name) && name !in d
    ensures Visible(d[name := file]) == Visible(d) + multiset(file.rows)
  {
    var e := d[name := file];
    assert e - {name} == d;
    hide IsParquet;
    MatchingWithout(e, name, IsParquet);
    RowsInUnion(e, Published(d), {name});
    RowsInOne(e, name);
    RowsInSame(e, d, Published(d));
  }

  lemma {:induction false} BaseGrowsByArrivals(s: Merging, m: Plan, acts: seq<Act>)
    requires Legal(s, m, acts)
    ensures Visible(Exec(s, m, acts).base) == Visible(s.base) + Arrivals(acts)
    decreases |acts|
  {
    hide Visible, Ops;
    if acts != [] {
      BaseGrowsByArrivals(Step(s, m, acts[0]), m, acts[1..]);
      if acts[0].Arrive? {
        ArriveAddsItsRows(s.base, acts[0].name, acts[0].file);
      }
    }
  }

  /** `d` is what some run of a merge may leave, with rows `owed` to be shown. */
  ghost predicate Sound(d: Directory, owed: multiset<LogRecord>) {
    exists s: Merging, m: Plan :: Phase(s, m) && s.dir == d && Visible(s.base) == owed
  }

  lemma SweptIsSound(d: Directory, sweep: Sweep)
    requires Runnable(d, sweep)
    ensures Sound(Swept(d, sweep).dir, Visible(Recovered(d, sweep.listing)) + Arrivals(sweep.acts))
  {
    hide Planned, Visible, Ops, RecoverOps, Exec, Legal;
    var start := Begin(Recovered(d, sweep.listing));
    RunKeepsPhase(start, sweep.plan, sweep.acts);
    BaseGrowsByArrivals(start, sweep.plan, sweep.acts);
  }

  lemma RecoveryPaysWhatIsOwed(d: Directory, owed: multiset<LogRecord>, listing: seq<string>)
    requires Sound(d, owed) && Enumerates(listing, d)
    ensures Visible(Recovered(d, listing)) == owed
  {
    var s: Merging, m: Plan :| Phase(s, m) && s.dir == d && Visible(s.base) == owed;
    RecoveryFrom(s, m, listing);
  }

  lemma {:induction false} SweepsKeepSound(d: Directory, owed: multiset<LogRecord>, sweeps: seq<Sweep>)
    requires Sound(d, owed) && AllRunnable(d, sweeps)
    ensures Sound(After(d, sweeps), owed + AllArrivals(sweeps))
    decreases |sweeps|
  {
    hide Sound, Runnable, Swept, Recovered;
    if sweeps != [] {
      EnumeratesAtStart(d, sweeps[0]);
      RecoveryPaysWhatIsOwed(d, owed, sweeps[0].listing);
      SweptIsSound(d, sweeps[0]);
      SweepsKeepSound(Swept(d, sweeps[0]).dir, owed + Arrivals(sweeps[0].acts), sweeps[1..]);
      Reassociate(owed, Arrivals(sweeps[0].acts), AllArrivals(sweeps[1..]));
    } else {
      assert owed + AllArrivals(sweeps) == owed;
    }
  }

  lemma EnumeratesAtStart(d: Directory, sweep: Sweep)
    requires Runnable(d, sweep)
    ensures Enumerates(sweep.listing, d)
  {
  }

  lemma CleanIsSound(d: Directory, m: Plan)
    requires Planned(d, m)
    ensures Sound(d, Visible(d))
  {
    hide Visible, Planned;
    assert Phase(Begin(d), m);
  }

  /** From a clean partition, after any number of sweeps each cut short at any
      operation, one more recovery pass shows exactly the rows the partition
      started with and those that arrived since, each once. */
  lemma SweepsKeepEveryRow(start: Directory, sweeps: seq<Sweep>, listing: seq<string>)
    requires Clean(start) && AllRunnable(start, sweeps) && Enumerates(listing, After(start, sweeps))
    ensures Visible(Recovered(After(start, sweeps), listing)) == Visible(start) + AllArrivals(sweeps)
  {
    hide Visible, AllRunnable, After, Sound;
    if sweeps == [] {
      NoSweeps(start, sweeps);
      NothingToRecover(start, listing);
      assert Recovered(start, listing) == start;
      assert Visible(start) + AllArrivals(sweeps) == Visible(start);
    } else {
      FirstIsPlanned(start, sweeps);
      SweepsKeepSound(start, Visible(start), sweeps);
      RecoveryPaysWhatIsOwed(After(start, sweeps), Visible(start) + AllArrivals(sweeps), listing);
    }
  }

  lemma NoSweeps(start: Directory, sweeps: seq<Sweep>)
    requires sweeps == [] && AllRunnable(start, sweeps)
    ensures After(start, sweeps) == start
  {
  }

  lemma FirstIsPlanned(start: Directory, sweeps: seq<Sweep>)
    requires Clean(start) && sweeps != [] && AllRunnable(start, sweeps)
    ensures Sound(start, Visible(start))
  {
    hide Visible, Sound, Planned, Legal;
    NothingToRecover(start, sweeps[0].listing);
    CleanIsSound(start, sweeps[0].plan);
  }
}
