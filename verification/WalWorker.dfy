/** The WAL worker's state as worker.rs keeps it: fields updated in place, proved against WritePath. */
module WalWorker {
  import opened Seqs
  import opened Records
  import opened WritePath

  /** `MAX_GROUP_BATCH`. */
  const MAX_GROUP_BATCH: nat := 50

  class Channel<T> {
    var items: seq<T>

    constructor ()
      ensures items == []
    {
      items := [];
    }

    method Send(item: T)
      modifies this
      ensures items == old(items) + [item]
    {
      items := items + [item];
    }

    method TryRecv() returns (item: Option<T>)
      modifies this
      ensures old(items) == [] ==> item == None && items == []
      ensures old(items) != [] ==> item == Some(old(items)[0]) && items == old(items)[1..]
    {
      if items == [] {
        item := None;
      } else {
        item := Some(items[0]);
        items := items[1..];
      }
    }
  }

  /** The WAL directory. */
  class Disk {
    var files: map<nat, Segment>
    var active: Segment

    function Value(): Dir
      reads this
    {
      Dir(files, active)
    }

    /** `append_batch_no_sync`: the writer takes `room` more records before it fails. */
    method AppendNoSync(records: seq<LogRecord>, room: nat) returns (ok: bool, left: nat)
      modifies `active
      ensures ok <==> |records| <= room
      ensures var n := Min(room, |records|);
              && left == room - n
              && active == old(active).(entries := old(active.entries) + Tag(records[..n], Leftover))
    {
      left := room;
      var i := 0;
      while i < |records|
        invariant i <= |records| && left == room - i
        invariant active == old(active).(entries := old(active.entries) + Tag(records[..i], Leftover))
      {
        if left == 0 {
          return false, 0;
        }
        active := active.(entries := active.entries + [Entry(records[i], Leftover)]);
        assert Tag(records[..i + 1], Leftover) == Tag(records[..i], Leftover) + [Entry(records[i], Leftover)];
        left := left - 1;
        i := i + 1;
      }
      assert records[..|records|] == records;
      ok := true;
    }

    /** The append loop of a group: stops at the first batch that fails. */
    method AppendGroup(batches: seq<seq<LogRecord>>, room: nat) returns (ok: bool)
      modifies `active
      ensures ok <==> Rows(batches) <= room
      ensures active == old(active).(entries := old(active.entries) + Tag(Flat(batches)[..Min(room, Rows(batches))],
              Leftover))
    {
      var left, i := room, 0;
      NothingTagged(batches, active.entries);
      hide Flat, Tag;
      while i < |batches|
        invariant i <= |batches|
        invariant Rows(batches[..i]) <= room && left == room - Rows(batches[..i])
        invariant active == old(active).(entries := old(active.entries) + Tag(Flat(batches[..i]), Leftover))
      {
        var next := batches[i];
        ghost var done := Flat(batches[..i]);
        FlatSplit(batches, i + 1);
        FlatNext(batches, i);
        ok, left := AppendNoSync(next, left);
        ghost var n := Min(room - |done|, |next|);
        TagAppend(done, next[..n]);
        assert active.entries == old(active.entries) + Tag(done + next[..n], Leftover);
        if !ok {
          CutWithin(Flat(batches), done, next, Flat(batches[i + 1..]), room);
          return false;
        }
        assert next[..n] == next;
        i := i + 1;
      }
      assert batches[..|batches|] == batches;
      assert Flat(batches)[..Rows(batches)] == Flat(batches);
      ok := true;
    }

    /** History only: the records of a synced group are acknowledged. */
    method MarkAcked(records: seq<LogRecord>)
      requires |records| <= |active.entries|
      modifies `active
      ensures active == old(active).(entries := old(active.entries)[..|old(active.entries)| - |records|]
              + Tag(records, Acked))
    {
      active := active.(entries := active.entries[..|active.entries| - |records|] + Tag(records, Acked));
    }

    /** Removes the files of a drained part of the list, except those that will not go. */
    method Remove(segments: seq<Sealed>, stuck: set<nat>)
      modifies `files
      ensures files == old(files) - (SeqNos(segments) - stuck)
    {
      var i := 0;
      while i < |segments|
        invariant i <= |segments|
        invariant files == old(files) - (SeqNos(segments[..i]) - stuck)
      {
        var seqNo := segments[i].seqNo;
        assert segments[..i + 1] == segments[..i] + [segments[i]];
        if seqNo !in stuck {
          files := files - {seqNo};
        }
        i := i + 1;
      }
      assert segments[..|segments|] == segments;
    }

    /** `sync_data`; when it fails nothing is known to be on disk that was not before. */
    method SyncData(succeeds: bool) returns (ok: bool)
      modifies `active
      ensures ok == succeeds && active.entries == old(active.entries)
      ensures active.synced == if ok then |old(active.entries)| else old(active.synced)
    {
      ok := succeeds;
      if ok {
        active := active.(synced := |active.entries|);
      }
    }
  }

  class WalState {
    const disk: Disk
    var open: bool
    var sealed: seq<Sealed>
    var confirmed: nat
    var cumulative: nat
    var nextSeq: nat

    /** The fields as the value the specification speaks of. */
    function Value(): Wal
      reads this
    {
      Wal(open, sealed, confirmed, cumulative, nextSeq)
    }

    /** `WalState::open`, over the listing `sealed_segments` returned. */
    constructor Open(disk: Disk, listing: seq<nat>, writable: bool)
      requires ListingOf(disk.files, listing)
      ensures this.disk == disk
      ensures Value() == Reopen(disk.Value(), writable)
    {
      var total, next, listed := 0, 1, [];
      var i := 0;
      NothingBelow(disk.files, listing);
      hide LogBelow, SealedBelow, Bound;
      while i < |listing|
        invariant i <= |listing|
        invariant var n := Bound(listing, i);
                  && total == |LogBelow(disk.files, n)|
                  && listed == SealedBelow(disk.files, n)
                  && next == Max(1, n)
      {
        var seqNo := listing[i];
        ListsNext(disk.files, listing, i);
        total := total + |disk.files[seqNo].entries|;
        listed := listed + [Sealed(seqNo, total)];
        next := Max(next, seqNo + 1);
        i := i + 1;
      }
      total := total + |disk.active.entries|;
      ListingEnds(disk.files, listing);
      this.disk := disk;
      this.open := writable;
      this.sealed := listed;
      this.confirmed := 0;
      this.cumulative := total;
      this.nextSeq := next;
    }

    method RecordsWritten(n: nat)
      modifies `cumulative
      ensures cumulative == old(cumulative) + n
    {
      cumulative := cumulative + n;
    }

    method Rotate(io: RotateIo) returns (path: Option<nat>)
      modifies `open, `nextSeq, disk
      ensures (Value(), disk.Value(), path) == WritePath.Rotate(old(Value()), old(disk.Value()), io)
    {
      if !open {
        return None;
      }
      open := false;
      var _ := disk.SyncData(io.synced);
      var target := nextSeq;
      nextSeq := nextSeq + 1;
      if !io.renamed {
        open := io.reopened;
        return None;
      }
      disk.files := disk.files[target := disk.active];
      disk.active := EMPTY_SEGMENT;
      open := io.reopened;
      path := Some(target);
    }

    /** `stuck` holds the files `remove_file` fails on. */
    method Confirm(n: nat, io: RotateIo, stuck: set<nat>)
      modifies this, disk
      ensures (Value(), disk.Value()) == WritePath.Confirm(old(Value()), old(disk.Value()), n, io, stuck)
    {
      CountAndSeal(n, io);
      DropCovered(stuck);
    }

    /** The first half of `confirm`. */
    method CountAndSeal(n: nat, io: RotateIo)
      modifies this, disk
      ensures (Value(), disk.Value()) == Seal(old(Value()), old(disk.Value()), n, io)
    {
      confirmed := confirmed + n;
      var path := Rotate(io);
      ghost var rotated, dir := Value(), disk.Value();
      assert (rotated, dir, path) == WritePath.Rotate(old(Value()).(confirmed := old(confirmed) + n),
          old(disk.Value()), io);
      if path.Some? {
        sealed := sealed + [Sealed(path.value, cumulative)];
      }
      assert disk.Value() == dir;
      ghost var added := if path.Some? then [Sealed(path.value, rotated.cumulative)] else [];
      assert Value() == rotated.(sealed := rotated.sealed + added);
    }

    /** The second half of `confirm`: find the covered prefix, delete its files, drain it from the list. */
    method DropCovered(stuck: set<nat>)
      modifies `sealed, disk
      ensures (Value(), disk.Value()) == Reclaim(old(Value()), old(disk.Value()), stuck)
    {
      var through := 0;
      while through < |sealed| && sealed[through].cumulative <= confirmed
        invariant through <= |sealed|
        invariant Reclaimable(sealed, confirmed) == through + Reclaimable(sealed[through..], confirmed)
      {
        through := through + 1;
      }
      assert Reclaimable(sealed, confirmed) == through;

      disk.Remove(sealed[..through], stuck);
      sealed := sealed[through..];
    }

    /** `handle_append_group`: coalesces the first batch with up to 49 more into
        one sync, answers every batch, and hands over the acknowledged ones.
        `room` is how many records the writer takes before an append fails. */
    method HandleAppendGroup(first: seq<LogRecord>, receiver: Channel<seq<LogRecord>>, handoff: Channel<seq<LogRecord>>,
                             room: nat, syncs: bool)
      returns (batches: seq<seq<LogRecord>>, answers: seq<bool>)
      requires receiver != handoff
      modifies this, disk, receiver, handoff
      ensures var waiting := Min(49, |old(receiver.items)|);
              && batches == [first] + old(receiver.items)[..waiting]
              && receiver.items == old(receiver.items)[waiting..]
      ensures var io := if Rows(batches) <= room && syncs then Durable else Failed(Min(room, Rows(batches)));
              var ok := old(open) && io.Durable?;
              && (Value(), disk.Value(), ok) == Commit(old(Value()), old(disk.Value()), Flat(batches), io)
              && answers == seq(|batches|, _ => ok)
              && handoff.items == old(handoff.items) + (if ok then batches else [])
    {
      batches := Collect(first, receiver);
      var ok := CommitGroup(batches, room, syncs);
      var written;
      answers, written := Answer(batches, ok, handoff);
      RecordsWritten(written);
    }

    /** Appends and syncs a group; `cumulative` is left to the caller. */
    method CommitGroup(batches: seq<seq<LogRecord>>, room: nat, syncs: bool) returns (ok: bool)
      modifies disk
      ensures var io := if Rows(batches) <= room && syncs then Durable else Failed(Min(room, Rows(batches)));
              var (_, dir, durable) := Commit(Value(), old(disk.Value()), Flat(batches), io);
              disk.Value() == dir && ok == durable
    {
      if !open {
        return false;
      }
      ok := disk.AppendGroup(batches, room);
      if ok {
        assert Flat(batches)[..Rows(batches)] == Flat(batches);
        ok := disk.SyncData(syncs);
      }
      if ok {
        disk.MarkAcked(Flat(batches));
      }
    }

    /** One answer per batch in arrival order; acknowledged batches are handed over in that order. */
    method Answer(batches: seq<seq<LogRecord>>, ok: bool, handoff: Channel<seq<LogRecord>>)
      returns (answers: seq<bool>, written: nat)
      modifies handoff
      ensures answers == seq(|batches|, _ => ok)
      ensures written == if ok then Rows(batches) else 0
      ensures handoff.items == old(handoff.items) + (if ok then batches else [])
    {
      answers, written := [], 0;
      var i := 0;
      while i < |batches|
        invariant i <= |batches|
        invariant answers == seq(i, _ => ok)
        invariant written == if ok then Rows(batches[..i]) else 0
        invariant handoff.items == old(handoff.items) + (if ok then batches[..i] else [])
      {
        assert batches[..i + 1] == batches[..i] + [batches[i]];
        FlatNext(batches, i);
        if ok {
          written := written + |batches[i]|;
          answers := answers + [true];
          handoff.Send(batches[i]);
        } else {
          answers := answers + [false];
        }
        i := i + 1;
      }
      assert batches[..|batches|] == batches;
    }

    /** Drains the ingest channel up to the group limit. */
    method Collect(first: seq<LogRecord>, receiver: Channel<seq<LogRecord>>) returns (batches: seq<seq<LogRecord>>)
      modifies receiver
      ensures var waiting := Min(49, |old(receiver.items)|);
              && batches == [first] + old(receiver.items)[..waiting]
              && receiver.items == old(receiver.items)[waiting..]
    {
      batches := [first];
      ghost var all := receiver.items;
      for taken := 1 to MAX_GROUP_BATCH
        modifies receiver
        invariant |batches| == taken
        invariant taken - 1 <= |all| && batches == [first] + all[..taken - 1] && receiver.items == all[taken - 1..]
      {
        var next := receiver.TryRecv();
        match next
        case Some(batch) =>
          batches := batches + [batch];
          assert all[..taken] == all[..taken - 1] + [batch];
        case None =>
          assert all[..taken - 1] == all;
          return;
      }
    }
  }

  /** `listing` names exactly the sealed files, in ascending order. */
  ghost predicate ListingOf(files: map<nat, Segment>, listing: seq<nat>) {
    && (forall i | 0 <= i < |listing| :: listing[i] in files)
    && (forall i, j | 0 <= i < j < |listing| :: listing[i] < listing[j])
    && (forall k | k in files :: k in listing)
  }

  function Bound(listing: seq<nat>, i: nat): nat
    requires i <= |listing|
  {
    if i == 0 then 0 else listing[i - 1] + 1
  }

  lemma LogBelowSkips(files: map<nat, Segment>, n: nat)
    requires n !in files
    ensures LogBelow(files, n + 1) == LogBelow(files, n) && SealedBelow(files, n + 1) == SealedBelow(files, n)
  {
    assert EntriesAt(files, n) == [];
  }

  lemma {:induction false} GapIsEmpty(files: map<nat, Segment>, listing: seq<nat>, i: nat, n: nat)
    requires ListingOf(files, listing) && i <= |listing|
    requires Bound(listing, i) <= n && (i < |listing| ==> n <= listing[i])
    ensures LogBelow(files, n) == LogBelow(files, Bound(listing, i))
    ensures SealedBelow(files, n) == SealedBelow(files, Bound(listing, i))
  {
    hide LogBelow, SealedBelow;
    if Bound(listing, i) < n {
      assert forall j | 0 <= j < |listing| :: listing[j] != n - 1;
      LogBelowSkips(files, n - 1);
      GapIsEmpty(files, listing, i, n - 1);
    }
  }

  lemma ListingEnds(files: map<nat, Segment>, listing: seq<nat>)
    requires ListingOf(files, listing)
    ensures Max(1, Bound(listing, |listing|)) == NextSeq(files.Keys)
    ensures LogBelow(files, NextSeq(files.Keys)) == LogBelow(files, Bound(listing, |listing|))
    ensures SealedBelow(files, NextSeq(files.Keys)) == SealedBelow(files, Bound(listing, |listing|))
  {
    var n := NextSeq(files.Keys);
    forall k | k in files ensures k < Bound(listing, |listing|) {
      var j :| 0 <= j < |listing| && listing[j] == k;
    }
    if listing != [] {
      assert listing[|listing| - 1] in files.Keys;
    }
    GapIsEmpty(files, listing, |listing|, n);
  }

  lemma TagAppend(a: seq<LogRecord>, b: seq<LogRecord>)
    ensures Tag(a + b, Leftover) == Tag(a, Leftover) + Tag(b, Leftover)
  {
  }

  lemma NothingTagged(batches: seq<seq<LogRecord>>, es: seq<Entry>)
    ensures Flat(batches[..0]) == [] && es + Tag(Flat(batches[..0]), Leftover) == es
  {
  }

  /** What fits `room` when the next batch does not fit whole. */
  lemma CutWithin(all: seq<LogRecord>, done: seq<LogRecord>, next: seq<LogRecord>, rest: seq<LogRecord>, room: nat)
    requires all == done + next + rest && |done| <= room < |done| + |next|
    ensures all[..room] == done + next[..room - |done|]
  {
  }

  lemma NothingBelow(files: map<nat, Segment>, listing: seq<nat>)
    ensures LogBelow(files, Bound(listing, 0)) == [] && SealedBelow(files, Bound(listing, 0)) == []
            && Bound(listing, 0) == 0
  {
  }

  /** The next listed file, whatever lies before it. */
  lemma ListsNext(files: map<nat, Segment>, listing: seq<nat>, i: nat)
    requires ListingOf(files, listing) && i < |listing|
    ensures listing[i] in files && Bound(listing, i + 1) == listing[i] + 1 && Bound(listing, i) <= listing[i]
    ensures |LogBelow(files, Bound(listing, i + 1))| == |LogBelow(files, Bound(listing, i))|
            + |files[listing[i]].entries|
    ensures SealedBelow(files, Bound(listing, i + 1))
            == SealedBelow(files, Bound(listing, i)) + [Sealed(listing[i], |LogBelow(files, Bound(listing, i + 1))|)]
  {
    GapIsEmpty(files, listing, i, listing[i]);
  }
}
