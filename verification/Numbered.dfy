/** Records numbered by the call that handed them over, to tell equal ones apart. */
module Numbered {
  import opened Records

  datatype Entry = Entry(id: nat, record: LogRecord)

  /** Numbers strictly ascend: no entry twice, none out of order. */
  predicate InOrder(entries: seq<Entry>) {
    forall i, j | 0 <= i < j < |entries| :: entries[i].id < entries[j].id
  }

  /** Each entry is the record handed over by the call of its number. */
  predicate From(entries: seq<Entry>, given: seq<LogRecord>) {
    forall e | e in entries :: e.id < |given| && given[e.id] == e.record
  }

  lemma DropOldest(a: seq<Entry>, b: seq<Entry>, n: nat, given: seq<LogRecord>)
    requires n <= |b| && InOrder(a + b) && From(a + b, given)
    ensures InOrder(a + b[n..]) && From(a + b[n..], given)
  {
    var c := a + b[n..];
    forall i, j | 0 <= i < j < |c| ensures c[i].id < c[j].id {
      var k, l := if i < |a| then i else i + n, if j < |a| then j else j + n;
      assert c[i] == (a + b)[k] && c[j] == (a + b)[l];
    }
    assert forall e | e in c :: e in a + b;
  }

  lemma TakeFront(a: seq<Entry>, b: seq<Entry>, given: seq<LogRecord>)
    requires InOrder(a + b) && From(a + b, given)
    ensures InOrder(a) && From(a, given) && InOrder(b) && From(b, given)
  {
    assert forall i | 0 <= i < |a| :: (a + b)[i] == a[i];
    assert forall i | 0 <= i < |b| :: (a + b)[|a| + i] == b[i];
    assert forall e | e in a :: e in a + b;
    assert forall e | e in b :: e in a + b;
  }

  /** A record just handed over comes after all before it. */
  lemma AddNewest(a: seq<Entry>, given: seq<LogRecord>, r: LogRecord)
    requires InOrder(a) && From(a, given)
    ensures InOrder(a + [Entry(|given|, r)]) && From(a + [Entry(|given|, r)], given + [r])
  {
    assert forall i | 0 <= i < |a| :: a[i] in a;
  }

  lemma LeaveOut(a: seq<Entry>, b: seq<Entry>, c: seq<Entry>, given: seq<LogRecord>)
    requires InOrder(a + b + c) && From(a + b + c, given)
    ensures InOrder(a + c) && From(a + c, given)
  {
    assert a + b + c == a + (b + c);
    DropOldest(a, b + c, |b|, given);
    assert (b + c)[|b|..] == c;
  }

  /** `entries` are the last records handed over, in order and without a gap. */
  predicate Newest(entries: seq<Entry>, given: seq<LogRecord>) {
    && |entries| <= |given|
    && forall i | 0 <= i < |entries| ::
         var n := |given| - |entries| + i; entries[i] == Entry(n, given[n])
  }

  lemma NewestGrows(entries: seq<Entry>, given: seq<LogRecord>, r: LogRecord)
    requires Newest(entries, given)
    ensures Newest(entries + [Entry(|given|, r)], given + [r])
  {
  }

  /** Dropping the oldest leaves the newest. */
  lemma NewestWithoutOldest(entries: seq<Entry>, given: seq<LogRecord>, n: nat)
    requires n <= |entries| && Newest(entries, given)
    ensures Newest(entries[n..], given)
  {
  }
}
