/** How often compaction rewrites a byte, with merged files as large as their sources together. */
module CompactionCost {
  import opened Seqs

  /** A chunk, byte by byte: how many merges each byte has been through. */
  type Chunk = seq<nat>

  datatype Act = Arrive(size: nat) | Sweep

  function Small(chunks: seq<Chunk>, target: nat): seq<Chunk> {
    if chunks == [] then []
    else (if |chunks[0]| < target then [chunks[0]] else []) + Small(chunks[1..], target)
  }

  function Large(chunks: seq<Chunk>, target: nat): seq<Chunk> {
    if chunks == [] then []
    else (if |chunks[0]| < target then [] else [chunks[0]]) + Large(chunks[1..], target)
  }

  /** The merge of `chunks`: every byte has been through one more. */
  function Merged(chunks: seq<Chunk>): Chunk {
    var bytes := Flat(chunks);
    seq(|bytes|, i requires 0 <= i < |bytes| => bytes[i] + 1)
  }

  function Unmerged(size: nat): Chunk {
    seq(size, _ => 0)
  }

  /** `compact_partition` on sizes. */
  function Swept(chunks: seq<Chunk>, target: nat, maxFiles: nat): seq<Chunk> {
    var files := Small(chunks, target);
    if |files| <= maxFiles then chunks else Large(chunks, target) + [Merged(files)]
  }

  /** A published chunk has at least one byte. */
  predicate Legal(acts: seq<Act>) {
    forall a | a in acts :: a.Arrive? ==> a.size >= 1
  }

  function After(chunks: seq<Chunk>, target: nat, maxFiles: nat, acts: seq<Act>): seq<Chunk>
    decreases |acts|
  {
    if acts == [] then chunks
    else
      var next := match acts[0]
                  case Arrive(size) => chunks + [Unmerged(size)]
                  case Sweep => Swept(chunks, target, maxFiles);
      After(next, target, maxFiles, acts[1..])
  }

  lemma {:induction false} AfterSnoc(chunks: seq<Chunk>, target: nat, maxFiles: nat, acts: seq<Act>, last: Act)
    ensures var before := After(chunks, target, maxFiles, acts);
            After(chunks, target, maxFiles, acts + [last])
            == match last
               case Arrive(size) => before + [Unmerged(size)]
               case Sweep => Swept(before, target, maxFiles)
    decreases |acts|
  {
    hide Swept, Unmerged;
    if acts == [] {
      assert acts + [last] == [last] && [last][1..] == [];
    } else {
      assert (acts + [last])[0] == acts[0] && (acts + [last])[1..] == acts[1..] + [last];
      match acts[0]
      case Arrive(size) => AfterSnoc(chunks + [Unmerged(size)], target, maxFiles, acts[1..], last);
      case Sweep => AfterSnoc(Swept(chunks, target, maxFiles), target, maxFiles, acts[1..], last);
    }
  }

  // --------------------------------------------------------------- the bound

  /** A byte merged `n` times: its last merge took a chunk below the target. */
  predicate Affordable(n: nat, target: nat, maxFiles: nat) {
    n == 0 || maxFiles * (n - 1) + 2 <= target
  }

  /** Every merge behind a byte brought `maxFiles` other bytes into its chunk. */
  ghost predicate Paid(c: Chunk, target: nat, maxFiles: nat) {
    |c| >= 1 && forall i | 0 <= i < |c| :: maxFiles * c[i] + 1 <= |c| && Affordable(c[i], target, maxFiles)
  }

  ghost predicate AllPaid(chunks: seq<Chunk>, target: nat, maxFiles: nat) {
    forall c | c in chunks :: Paid(c, target, maxFiles)
  }

  lemma {:induction false} SmallAndLarge(chunks: seq<Chunk>, target: nat)
    ensures forall c | c in Small(chunks, target) :: c in chunks && |c| < target
    ensures forall c | c in Large(chunks, target) :: c in chunks
  {
    if chunks != [] {
      SmallAndLarge(chunks[1..], target);
    }
  }

  /** The bytes of `chunks` come from one of them, and the others add at least a byte each. */
  lemma {:induction false} FlatBytes(chunks: seq<Chunk>, i: nat)
    requires (forall c | c in chunks :: |c| >= 1) && i < |Flat(chunks)|
    ensures exists j, k :: 0 <= j < |chunks| && 0 <= k < |chunks[j]| && Flat(chunks)[i] == chunks[j][k]
                           && |Flat(chunks)| >= |chunks[j]| + |chunks| - 1
  {
    AtLeastOneEach(chunks[1..]);
    if i < |chunks[0]| {
      assert Flat(chunks)[i] == chunks[0][i];
    } else {
      FlatBytes(chunks[1..], i - |chunks[0]|);
      var j, k :| 0 <= j < |chunks| - 1 && 0 <= k < |chunks[1..][j]|
                  && Flat(chunks[1..])[i - |chunks[0]|] == chunks[1..][j][k]
                  && |Flat(chunks[1..])| >= |chunks[1..][j]| + |chunks| - 2;
      assert chunks[j + 1] == chunks[1..][j];
      assert Flat(chunks)[i] == chunks[j + 1][k];
    }
  }

  lemma {:induction false} AtLeastOneEach(chunks: seq<Chunk>)
    requires forall c | c in chunks :: |c| >= 1
    ensures |Flat(chunks)| >= |chunks|
  {
    if chunks != [] {
      AtLeastOneEach(chunks[1..]);
    }
  }

  lemma OneMoreMerge(n: nat, size: nat, total: nat, others: nat, target: nat, maxFiles: nat)
    requires maxFiles * n + 1 <= size < target && others >= maxFiles && total >= size + others
    ensures maxFiles * (n + 1) + 1 <= total && Affordable(n + 1, target, maxFiles)
  {
    assert maxFiles * (n + 1) == maxFiles * n + maxFiles;
  }

  lemma MergeIsPaid(files: seq<Chunk>, target: nat, maxFiles: nat)
    requires AllPaid(files, target, maxFiles) && (forall c | c in files :: |c| < target) && |files| > maxFiles
    ensures Paid(Merged(files), target, maxFiles)
  {
    AtLeastOneEach(files);
    var m := Merged(files);
    forall i | 0 <= i < |m| ensures maxFiles * m[i] + 1 <= |m| && Affordable(m[i], target, maxFiles) {
      FlatBytes(files, i);
      var j, k :| 0 <= j < |files| && 0 <= k < |files[j]| && Flat(files)[i] == files[j][k]
                  && |Flat(files)| >= |files[j]| + |files| - 1;
      assert files[j] in files;
      OneMoreMerge(files[j][k], |files[j]|, |m|, |files| - 1, target, maxFiles);
    }
  }

  lemma SweepIsPaid(chunks: seq<Chunk>, target: nat, maxFiles: nat)
    requires AllPaid(chunks, target, maxFiles)
    ensures AllPaid(Swept(chunks, target, maxFiles), target, maxFiles)
  {
    SmallAndLarge(chunks, target);
    hide Paid, Merged;
    if |Small(chunks, target)| > maxFiles {
      MergeIsPaid(Small(chunks, target), target, maxFiles);
    }
  }

  lemma {:induction false} RunIsPaid(chunks: seq<Chunk>, target: nat, maxFiles: nat, acts: seq<Act>)
    requires AllPaid(chunks, target, maxFiles) && Legal(acts)
    ensures AllPaid(After(chunks, target, maxFiles, acts), target, maxFiles)
    decreases |acts|
  {
    hide Swept;
    if acts != [] {
      match acts[0] {
        case Arrive(size) =>
          var added := Unmerged(size);
          assert Paid(added, target, maxFiles);
          RunIsPaid(chunks + [added], target, maxFiles, acts[1..]);
        case Sweep =>
          SweepIsPaid(chunks, target, maxFiles);
          RunIsPaid(Swept(chunks, target, maxFiles), target, maxFiles, acts[1..]);
      }
    }
  }

  /** Over any run of arrivals and sweeps, no byte goes through more than
      `ceil(target / maxFiles)` merges. */
  lemma WriteAmplificationIsBounded(target: nat, maxFiles: nat, acts: seq<Act>, c: Chunk, i: nat)
    requires maxFiles >= 1 && Legal(acts)
    requires c in After([], target, maxFiles, acts) && i < |c|
    ensures Affordable(c[i], target, maxFiles)
    ensures c[i] <= (target + maxFiles - 1) / maxFiles
  {
    RunIsPaid([], target, maxFiles, acts);
    if c[i] > 0 {
      CeilingBound(c[i] - 1, target, maxFiles);
    }
  }

  lemma CeilingBound(n: nat, target: nat, maxFiles: nat)
    requires maxFiles >= 1 && maxFiles * n + 2 <= target
    ensures n + 1 <= (target + maxFiles - 1) / maxFiles
  {
    assert maxFiles * (n + 1) == maxFiles * n + maxFiles;
    QuotientAtLeast(target + maxFiles - 1, maxFiles, n + 1);
  }

  lemma QuotientAtLeast(x: nat, d: nat, k: nat)
    requires d >= 1
    ensures d * k <= x ==> k <= x / d
  {
    var q := x / d;
    if q < k {
      assert d * (q + 1) <= d * k;
    }
  }

  // ------------------------------------------------- when there is no bound

  ghost predicate BoundedBy(target: nat, maxFiles: nat, bound: nat) {
    forall acts, c | Legal(acts) && c in After([], target, maxFiles, acts) :: forall i | 0 <= i < |c| :: c[i] <= bound
  }

  /** Some number of merges no byte ever exceeds. */
  ghost predicate Bounded(target: nat, maxFiles: nat) {
    exists bound: nat :: BoundedBy(target, maxFiles, bound)
  }

  function Sweeps(n: nat): seq<Act> {
    seq(n, _ => Sweep)
  }

  lemma AloneSwept(n: nat, target: nat)
    requires target >= 2
    ensures Swept([[n]], target, 0) == [[n + 1]]
  {
    var chunks: seq<Chunk> := [[n]];
    assert chunks[1..] == [];
    var none: seq<Chunk> := [];
    assert Small(none, target) == [] && Large(none, target) == [];
    assert Small(chunks, target) == [[n]] + Small(chunks[1..], target) == [[n]];
    assert Large(chunks, target) == none + Large(chunks[1..], target) == [];
    FlatOne([n]);
    assert Merged(chunks) == [n + 1];
  }

  /** With no minimum number of files, a lone small chunk is rewritten by every sweep. */
  lemma {:induction false} RewrittenEverySweep(n: nat, k: nat, target: nat)
    requires target >= 2
    ensures After([[n]], target, 0, Sweeps(k)) == [[n + k]]
    decreases k
  {
    if k > 0 {
      AloneSwept(n, target);
      assert Sweeps(k)[1..] == Sweeps(k - 1);
      RewrittenEverySweep(n + 1, k - 1, target);
    }
  }

  /** The bound exists exactly when the file threshold is positive or no chunk can be below the target. */
  lemma BoundedIff(target: nat, maxFiles: nat)
    ensures Bounded(target, maxFiles) <==> maxFiles >= 1 || target <= 1
  {
    if maxFiles >= 1 {
      forall acts, c | Legal(acts) && c in After([], target, maxFiles, acts)
        ensures forall i | 0 <= i < |c| :: c[i] <= (target + maxFiles - 1) / maxFiles
      {
        forall i | 0 <= i < |c| ensures c[i] <= (target + maxFiles - 1) / maxFiles {
          WriteAmplificationIsBounded(target, maxFiles, acts, c, i);
        }
      }
      assert BoundedBy(target, maxFiles, (target + maxFiles - 1) / maxFiles);
    } else if target <= 1 {
      forall acts, c | Legal(acts) && c in After([], target, maxFiles, acts)
        ensures forall i | 0 <= i < |c| :: c[i] <= 0
      {
        RunIsPaid([], target, maxFiles, acts);
      }
      assert BoundedBy(target, maxFiles, 0);
    } else {
      forall bound: nat ensures !BoundedBy(target, maxFiles, bound) {
        var acts := [Arrive(1)] + Sweeps(bound + 1);
        UnboundedRun(bound + 1, target, acts);
        var c: Chunk := [bound + 1];
        assert c in After([], target, maxFiles, acts) && c[0] > bound;
      }
    }
  }

  lemma UnboundedRun(k: nat, target: nat, acts: seq<Act>)
    requires target >= 2 && acts == [Arrive(1)] + Sweeps(k)
    ensures Legal(acts) && After([], target, 0, acts) == [[k]]
  {
    assert acts[0] == Arrive(1) && acts[1..] == Sweeps(k);
    assert Unmerged(1) == [0];
    var none: seq<Chunk> := [];
    assert none + [[0]] == [[0]];
    assert After(none, target, 0, acts) == After([[0]], target, 0, Sweeps(k));
    RewrittenEverySweep(0, k, target);
  }
}
