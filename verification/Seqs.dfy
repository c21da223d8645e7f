/** Sequence vocabulary shared by the models: flattening, sums, and filtering by a predicate. */
module Seqs {

  datatype Option<+T> = None | Some(value: T)

  function Flat<T>(batches: seq<seq<T>>): seq<T> {
    if batches == [] then [] else batches[0] + Flat(batches[1..])
  }

  function Sum(counts: seq<nat>): nat {
    if counts == [] then 0 else counts[0] + Sum(counts[1..])
  }

  function Min(a: int, b: int): int {
    if a <= b then a else b
  }

  function Max(a: int, b: int): int {
    if a <= b then b else a
  }

  lemma Assoc<T>(a: seq<T>, b: seq<T>, c: seq<T>)
    ensures a + b + c == a + (b + c)
  {
  }

  lemma TakeAll<T>(s: seq<T>)
    ensures s[..|s|] == s
  {
  }

  lemma {:induction false} FlatAppend<T>(a: seq<seq<T>>, b: seq<seq<T>>)
    ensures Flat(a + b) == Flat(a) + Flat(b)
  {
    if a == [] {
      assert a + b == b;
    } else {
      assert (a + b)[1..] == a[1..] + b;
      FlatAppend(a[1..], b);
    }
  }

  lemma FlatNone<T>()
    ensures Flat<T>([]) == []
  {
  }

  lemma FlatOne<T>(x: seq<T>)
    ensures Flat([x]) == x
  {
    assert [x][1..] == [];
  }

  lemma FlatNext<T>(batches: seq<seq<T>>, i: nat)
    requires i < |batches|
    ensures Flat(batches[..i + 1]) == Flat(batches[..i]) + batches[i]
  {
    assert batches[..i + 1] == batches[..i] + [batches[i]];
    FlatAppend(batches[..i], [batches[i]]);
    FlatOne(batches[i]);
  }

  lemma FlatSplit<T>(batches: seq<seq<T>>, i: nat)
    requires i <= |batches|
    ensures Flat(batches) == Flat(batches[..i]) + Flat(batches[i..])
  {
    assert batches == batches[..i] + batches[i..];
    FlatAppend(batches[..i], batches[i..]);
  }

  lemma {:induction false} SumAppend(a: seq<nat>, b: seq<nat>)
    ensures Sum(a + b) == Sum(a) + Sum(b)
  {
    if a == [] {
      assert a + b == b;
    } else {
      assert (a + b)[1..] == a[1..] + b;
      SumAppend(a[1..], b);
    }
  }
}
