/**
 Merging a partition's chunks as a crash-safe protocol over one directory:
 write a `.part`, hide the sources, publish, delete. A crash may fall between
 any two file operations, and flushed chunks may arrive between them.
 */
module Compaction {
  import opened Seqs
  import opened Records
  import opened Directories

  // ------------------------------------------------------------- file names

  const SUPERSEDED_SUFFIX := "superseded"
  const PART_SUFFIX := "part"

  /** `Path::extension` and `file_stem` of a file name: the last dot splits them,
      unless there is none or it comes first. */
  function LastDot(name: string): (i: Option<nat>)
    ensures i.Some? ==> i.value < |name| && name[i.value] == '.'
  {
    if name == [] then None
    else if name[|name| - 1] == '.' then Some(|name| - 1)
    else LastDot(name[..|name| - 1])
  }

  function Extension(name: string): Option<string> {
    match LastDot(name)
    case None => None
    case Some(i) => if i == 0 then None else Some(name[i + 1..])
  }

  /** `with_extension("")`. */
  function Stem(name: string): string {
    match LastDot(name)
    case None => name
    case Some(i) => if i == 0 then name else name[..i]
  }

  predicate IsParquet(name: string) {
    Extension(name) == Some("parquet")
  }

  predicate HasSuffix(name: string, suffix: string) {
    Extension(name) == Some(suffix)
  }

  /** `superseded_path`. */
  function Hidden(name: string): string {
    name + "." + SUPERSEDED_SUFFIX
  }

  lemma {:induction false} LastDotAt(a: string, b: string)
    requires forall i | 0 <= i < |b| :: b[i] != '.'
    ensures LastDot(a + "." + b) == Some(|a|)
  {
    var s := a + "." + b;
    if b == [] {
      assert s[|s| - 1] == '.';
    } else {
      assert s[..|s| - 1] == a + "." + b[..|b| - 1];
      LastDotAt(a, b[..|b| - 1]);
    }
  }

  lemma ExtensionOf(a: string, b: string)
    requires a != [] && forall i | 0 <= i < |b| :: b[i] != '.'
    ensures Extension(a + "." + b) == Some(b) && Stem(a + "." + b) == a
  {
    LastDotAt(a, b);
  }

  /** Hiding takes a chunk out of every scan, and restoring undoes hiding. */
  lemma HiddenRoundTrip(name: string)
    requires name != []
    ensures Stem(Hidden(name)) == name
    ensures HasSuffix(Hidden(name), SUPERSEDED_SUFFIX)
    ensures !IsParquet(Hidden(name)) && !HasSuffix(Hidden(name), PART_SUFFIX)
  {
    ExtensionOf(name, SUPERSEDED_SUFFIX);
  }

  // -------------------------------------------------------------- the plan

  type Directory = map<string, File>

  /** One merge: its sources in order, its temporary and final names, what a
      half-written output looks like, the finished output, and the hidden chunks
      whose removal fails. */
  datatype Plan = Plan(files: seq<string>, part: string, final: string, partial: File, merged: File, stuck: set<string>)

  function Hiddens(files: seq<string>): seq<string> {
    seq(|files|, i requires 0 <= i < |files| => Hidden(files[i]))
  }

  function Stems(names: seq<string>): seq<string> {
    seq(|names|, i requires 0 <= i < |names| => Stem(names[i]))
  }

  /** The hidden chunks that really go, in order. */
  function Removed(files: seq<string>, stuck: set<string>): seq<string> {
    if files == [] then []
    else (if Hidden(files[0]) in stuck then [] else [Hidden(files[0])]) + Removed(files[1..], stuck)
  }

  /** The file operations of `write_merged` and `publish_merged`, in order. */
  function Ops(m: Plan): seq<Op<string>> {
    [Write(m.part, m.partial), Write(m.part, m.merged)] + Renames(m.files, Hiddens(m.files)) + [Rename(m.part, m.final)]
    + Deletes(Removed(m.files, m.stuck))
  }

  /** The names in `listing` with the given suffix, in order. */
  function Select(listing: seq<string>, suffix: string): seq<string> {
    if listing == [] then []
    else (if HasSuffix(listing[0], suffix) then [listing[0]] else []) + Select(listing[1..], suffix)
  }

  /** The file operations of `recover_partition`, given what it listed. */
  function RecoverOps(listing: seq<string>): seq<Op<string>> {
    var parts, hidden := Select(listing, PART_SUFFIX), Select(listing, SUPERSEDED_SUFFIX);
    if parts == [] then Deletes(hidden) else Deletes(parts) + Renames(hidden, Stems(hidden))
  }

  function Published(d: Directory): set<string> {
    Matching(d, IsParquet)
  }

  /** What a scan of the directory sees. */
  ghost function Visible(d: Directory): multiset<LogRecord> {
    RowsIn(d, Published(d))
  }

  /** No leftovers of an earlier merge. */
  ghost predicate Clean(d: Directory) {
    forall n | n in d :: !HasSuffix(n, PART_SUFFIX) && !HasSuffix(n, SUPERSEDED_SUFFIX)
  }

  function RowsOf(d: Directory, files: seq<string>): seq<LogRecord>
    requires forall f | f in files :: f in d
  {
    if files == [] then [] else d[files[0]].rows + RowsOf(d, files[1..])
  }

  function AsideOf(files: seq<string>): map<string, string> {
    map f | f in files :: Hidden(f)
  }

  /** `listing` is what `read_dir` yields for `d`, in whatever order. */
  ghost predicate Enumerates(listing: seq<string>, d: Directory) {
    Distinct(listing) && Elements(listing) == d.Keys
  }
}
