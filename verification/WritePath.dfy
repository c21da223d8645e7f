/**
 The zero-loss write path as one state machine: the WAL worker (group commit,
 rotation, reclaim), the MemTable worker (staging, flush, retry, confirm) and
 boot-time replay, with a crash possible between any two steps.

 The functions `Commit` to `Reopen` are the specification of the WAL worker; the
 class in WalWorker.dfy is proved against them.
 */
module WritePath {
  import opened Seqs
  import opened Records

  // ---------------------------------------------------------------- segments

  /** Leftover: written by a group that was answered with an error, so counted
      nowhere. Counted: counted in `cumulative`. Acked: counted, and its client
      was told it is durable. */
  datatype Status = Leftover | Counted | Acked

  datatype Entry = Entry(record: LogRecord, status: Status)

  /** One WAL file. The first `synced` entries survive any crash; the rest may
      be cut away from the end. */
  datatype Segment = Segment(entries: seq<Entry>, synced: nat)

  const EMPTY_SEGMENT := Segment([], 0)

  /** What `WalState` remembers of a sealed file. */
  datatype Sealed = Sealed(seqNo: nat, cumulative: nat)

  /** The fields of `WalState`; `open` says whether `wal` is `Ok(writer)`. */
  datatype Wal = Wal(open: bool, sealed: seq<Sealed>, confirmed: nat, cumulative: nat, nextSeq: nat)

  /** The WAL directory: sealed files by sequence number, and `current.wal`
      (a missing active file reads as an empty one). */
  datatype Dir = Dir(files: map<nat, Segment>, active: Segment)

  function Tag(records: seq<LogRecord>, status: Status): (es: seq<Entry>)
    ensures |es| == |records|
  {
    seq(|records|, i requires 0 <= i < |records| => Entry(records[i], status))
  }

  function RecordsOf(es: seq<Entry>): (rs: seq<LogRecord>)
    ensures |rs| == |es|
  {
    seq(|es|, i requires 0 <= i < |es| => es[i].record)
  }

  lemma RecordsAppend(a: seq<Entry>, b: seq<Entry>)
    ensures RecordsOf(a + b) == RecordsOf(a) + RecordsOf(b)
  {
  }

  const COUNTED_OR_ACKED := {Counted, Acked}

  /** The records of the entries whose status is in `want`, in order. */
  function Pick(es: seq<Entry>, want: set<Status>): seq<LogRecord> {
    if es == [] then []
    else (if es[0].status in want then [es[0].record] else []) + Pick(es[1..], want)
  }

  function EntriesAt(files: map<nat, Segment>, seqNo: nat): seq<Entry> {
    if seqNo in files then files[seqNo].entries else []
  }

  /** The entries of the sealed files below `n`, oldest first. */
  function LogBelow(files: map<nat, Segment>, n: nat): seq<Entry> {
    if n == 0 then [] else LogBelow(files, n - 1) + EntriesAt(files, n - 1)
  }

  /** One more than the largest sequence number on disk, at least 1. */
  function NextSeq(keys: set<nat>): (n: nat)
    ensures 1 <= n && (forall k | k in keys :: k < n)
    ensures n == 1 || n - 1 in keys
  {
    if keys == {} then 1
    else
      var k := MaxOf(keys);
      k + 1
  }

  lemma {:induction false} MaxExists(keys: set<nat>)
    requires keys != {}
    ensures exists m :: m in keys && forall k | k in keys :: k <= m
  {
    var k :| k in keys;
    var rest := keys - {k};
    assert forall j | j in keys :: j == k || j in rest;
    if rest == {} {
      assert k in keys && forall j | j in keys :: j <= k;
    } else {
      MaxExists(rest);
      var m :| m in rest && forall j | j in rest :: j <= m;
      assert Max(k, m) in keys && forall j | j in keys :: j <= Max(k, m);
    }
  }

  function MaxOf(keys: set<nat>): (m: nat)
    requires keys != {}
    ensures m in keys && forall k | k in keys :: k <= m
  {
    MaxExists(keys);
    var m :| m in keys && forall k | k in keys :: k <= m;
    m
  }

  /** Everything on disk in replay order: sealed files oldest first, then the active file. */
  function DiskLog(dir: Dir): seq<Entry> {
    LogBelow(dir.files, NextSeq(dir.files.Keys)) + dir.active.entries
  }

  /** `replay_all`. */
  function ReplayAll(dir: Dir): seq<LogRecord> {
    RecordsOf(DiskLog(dir))
  }

  // -------------------------------------------------- WAL worker operations

  /** How a group commit goes: every append and the sync succeed, or something
      fails after the first `kept` records reached the writer. */
  datatype CommitIo = Durable | Failed(kept: nat)

  function Commit(wal: Wal, dir: Dir, records: seq<LogRecord>, io: CommitIo): (r: (Wal, Dir, bool))
    requires io.Failed? ==> io.kept <= |records|
  {
    if !wal.open then (wal, dir, false)
    else match io
      case Durable =>
        var es := dir.active.entries + Tag(records, Acked);
        (wal.(cumulative := wal.cumulative + |records|), dir.(active := Segment(es, |es|)), true)
      case Failed(kept) =>
        (wal, dir.(active := dir.active.(entries := dir.active.entries + Tag(records[..kept], Leftover))), false)
  }

  datatype RotateIo = RotateIo(synced: bool, renamed: bool, reopened: bool)

  function Rotate(wal: Wal, dir: Dir, io: RotateIo): (r: (Wal, Dir, Option<nat>)) {
    if !wal.open then (wal, dir, None)
    else
      var segment := if io.synced then dir.active.(synced := |dir.active.entries|) else dir.active;
      var wal' := wal.(nextSeq := wal.nextSeq + 1, open := io.reopened);
      if !io.renamed then (wal', dir.(active := segment), None)
      else (wal', Dir(dir.files[wal.nextSeq := segment], EMPTY_SEGMENT), Some(wal.nextSeq))
  }

  /** How many leading segments are covered by `confirmed` rows. */
  function Reclaimable(sealed: seq<Sealed>, confirmed: nat): (n: nat)
    ensures n <= |sealed|
    ensures forall i | 0 <= i < n :: sealed[i].cumulative <= confirmed
    ensures n < |sealed| ==> sealed[n].cumulative > confirmed
  {
    if sealed == [] || sealed[0].cumulative > confirmed then 0
    else 1 + Reclaimable(sealed[1..], confirmed)
  }

  function SeqNos(sealed: seq<Sealed>): set<nat> {
    set s | s in sealed :: s.seqNo
  }

  /** The first half of `confirm`: count the rows, rotate, list the sealed segment. */
  function Seal(wal: Wal, dir: Dir, rows: nat, io: RotateIo): (r: (Wal, Dir)) {
    var (wal', dir', path) := Rotate(wal.(confirmed := wal.confirmed + rows), dir, io);
    (wal'.(sealed := wal'.sealed + (if path.Some? then [Sealed(path.value, wal'.cumulative)] else [])), dir')
  }

  /** The second half: drop the covered segments and their files; `stuck` holds
      the files `remove_file` fails on. */
  function Reclaim(wal: Wal, dir: Dir, stuck: set<nat>): (r: (Wal, Dir)) {
    var through := Reclaimable(wal.sealed, wal.confirmed);
    (wal.(sealed := wal.sealed[through..]), dir.(files := dir.files - (SeqNos(wal.sealed[..through]) - stuck)))
  }

  function Confirm(wal: Wal, dir: Dir, rows: nat, io: RotateIo, stuck: set<nat>): (r: (Wal, Dir)) {
    var (wal', dir') := Seal(wal, dir, rows, io);
    Reclaim(wal', dir', stuck)
  }

  /** Position in the counted log where listed segment `i` begins. */
  function Start(sealed: seq<Sealed>, released: nat, i: nat): nat
    requires i <= |sealed|
  {
    if i == 0 then released else sealed[i - 1].cumulative
  }

  /** Where the listed part of the counted log starts after a confirmation. */
  function ReleasedBy(wal: Wal, dir: Dir, rows: nat, io: RotateIo, released: nat): nat {
    var (wal', _) := Seal(wal, dir, rows, io);
    Start(wal'.sealed, released, Reclaimable(wal'.sealed, wal'.confirmed))
  }

  /** The list `WalState::open` builds: each sealed file below `n` with the number of records up to its end. */
  function SealedBelow(files: map<nat, Segment>, n: nat): seq<Sealed> {
    if n == 0 then []
    else SealedBelow(files, n - 1) + (if n - 1 in files then [Sealed(n - 1, |LogBelow(files, n)|)] else [])
  }

  /** `WalState::open`; `writable` says whether the writer opens. */
  function Reopen(dir: Dir, writable: bool): Wal {
    var n := NextSeq(dir.files.Keys);
    Wal(writable, SealedBelow(dir.files, n), 0, |DiskLog(dir)|, n)
  }

  // ---------------------------------------------- MemTable worker operations

  function Rows(batches: seq<seq<LogRecord>>): nat {
    |Flat(batches)|
  }

  /** `return_to_live_buffer`: drops the oldest batches while the rows exceed the cap. */
  function Trim(batches: seq<seq<LogRecord>>, cap: nat): seq<seq<LogRecord>> {
    if Rows(batches) <= cap then batches else Trim(batches[1..], cap)
  }

  /** The rows `Trim` drops. */
  function ShedRows(batches: seq<seq<LogRecord>>, cap: nat): seq<LogRecord> {
    if Rows(batches) <= cap then [] else batches[0] + ShedRows(batches[1..], cap)
  }

  lemma {:induction false} TrimSplits(batches: seq<seq<LogRecord>>, cap: nat)
    ensures Flat(batches) == ShedRows(batches, cap) + Flat(Trim(batches, cap))
    ensures Rows(Trim(batches, cap)) <= cap
    ensures Rows(batches) <= cap ==> ShedRows(batches, cap) == [] && Trim(batches, cap) == batches
  {
    if Rows(batches) > cap {
      TrimSplits(batches[1..], cap);
    }
  }
}
