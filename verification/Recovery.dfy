/** Boot: reading every WAL file back and seeding the live buffer, as `run_server` does before the workers start. */
module Recovery {
  import opened Records
  import opened WritePath
  import opened WalWorker

  lemma NextBound(files: map<nat, Segment>, listing: seq<nat>, i: nat)
    requires ListingOf(files, listing) && i < |listing|
    ensures RecordsOf(LogBelow(files, Bound(listing, i + 1)))
            == RecordsOf(LogBelow(files, Bound(listing, i))) + RecordsOf(files[listing[i]].entries)
  {
    GapIsEmpty(files, listing, i, listing[i]);
    RecordsAppend(LogBelow(files, listing[i]), files[listing[i]].entries);
  }

  /** `replay_all`: the sealed files in listing order, then the active one. */
  method ReplayFiles(disk: Disk, listing: seq<nat>) returns (out: seq<LogRecord>)
    requires ListingOf(disk.files, listing)
    ensures out == ReplayAll(disk.Value())
  {
    out := [];
    assert RecordsOf([]) == [];
    var i := 0;
    while i < |listing|
      invariant i <= |listing| && out == RecordsOf(LogBelow(disk.files, Bound(listing, i)))
    {
      NextBound(disk.files, listing, i);
      out := out + RecordsOf(disk.files[listing[i]].entries);
      i := i + 1;
    }
    ListingEnds(disk.files, listing);
    RecordsAppend(LogBelow(disk.files, NextSeq(disk.files.Keys)), disk.active.entries);
    out := out + RecordsOf(disk.active.entries);
  }

  /** `recover_wal_into`: what was replayed becomes one batch of the live buffer, in log order. */
  method RecoverWalInto(disk: Disk, listing: seq<nat>, live: seq<seq<LogRecord>>) returns (seeded: seq<seq<LogRecord>>)
    requires ListingOf(disk.files, listing)
    ensures var recovered := ReplayAll(disk.Value());
            seeded == live + (if recovered == [] then [] else [recovered])
  {
    var recovered := ReplayFiles(disk, listing);
    if recovered == [] {
      assert live + [] == live;
      return live;
    }
    var table: seq<LogRecord> := [];
    var i := 0;
    while i < |recovered|
      invariant i <= |recovered| && table == recovered[..i]
    {
      table := table + [recovered[i]];
      i := i + 1;
    }
    assert recovered[..|recovered|] == recovered;
    seeded := live + [table];
  }
}
