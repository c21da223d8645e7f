/**
 The WAL as a byte log: `bincode` 1 with its default options writes a record
 field by field (fixed-width little-endian integers, a one-byte option tag, a
 64-bit length before each string), and the log is those encodings end to end.
 */
module RecordCodec {
  import opened Seqs
  import opened Records
  import Utf8

  type byte = Utf8.byte

  const TWO_64: nat := 0x1_0000_0000_0000_0000
  const TWO_63: nat := 0x8000_0000_0000_0000

  // ------------------------------------------------------------- encoding

  function Le(n: nat, width: nat): (bs: seq<byte>)
    ensures |bs| == width
  {
    if width == 0 then [] else [n % 256] + Le(n / 256, width - 1)
  }

  function FromLe(bs: seq<byte>): nat {
    if bs == [] then 0 else (bs[0] as int) + 256 * FromLe(bs[1..])
  }

  function Pow256(k: nat): nat {
    if k == 0 then 1 else 256 * Pow256(k - 1)
  }

  predicate IsI64(n: int) {
    -(TWO_63 as int) <= n < TWO_63
  }

  function EncodeI64(n: int): seq<byte>
    requires IsI64(n)
  {
    Le(if n < 0 then n + TWO_64 else n, 8)
  }

  predicate FitsString(s: string) {
    |Utf8.Encode(s)| < TWO_64
  }

  function EncodeString(s: string): seq<byte>
    requires FitsString(s)
  {
    Le(|Utf8.Encode(s)|, 8) + Utf8.Encode(s)
  }

  function EncodeOption(o: Option<string>): seq<byte>
    requires o.Some? ==> FitsString(o.value)
  {
    if o.None? then [0] else [1] + EncodeString(o.value)
  }

  /** What a Rust `LogRecord` can hold. */
  predicate Encodable(r: LogRecord) {
    && IsI64(r.timestampUs)
    && (r.traceId.Some? ==> FitsString(r.traceId.value))
    && FitsString(r.level) && FitsString(r.service) && FitsString(r.message)
    && (r.rawBody.Some? ==> FitsString(r.rawBody.value))
  }

  function EncodeRecord(r: LogRecord): seq<byte>
    requires Encodable(r)
  {
    EncodeI64(r.timestampUs) + (EncodeOption(r.traceId) + (EncodeString(r.level) +
    (EncodeString(r.service) + (EncodeString(r.message) + EncodeOption(r.rawBody)))))
  }

  predicate AllEncodable(rs: seq<LogRecord>) {
    forall i | 0 <= i < |rs| :: Encodable(rs[i])
  }

  function EncodeLog(rs: seq<LogRecord>): seq<byte>
    requires AllEncodable(rs)
  {
    if rs == [] then [] else EncodeRecord(rs[0]) + EncodeLog(rs[1..])
  }

  // ------------------------------------------------------------- decoding

  /** Eof is bincode's `Io(UnexpectedEof)`; Corrupt is every other error. */
  datatype Parse<+T> = Parsed(value: T, rest: seq<byte>) | Eof | Corrupt {
    predicate IsFailure() {
      !Parsed?
    }
    function PropagateFailure<U>(): Parse<U>
      requires !Parsed?
    {
      if Eof? then Parse<U>.Eof else Parse<U>.Corrupt
    }
    function Extract(): (T, seq<byte>)
      requires Parsed?
    {
      (value, rest)
    }
  }

  function ReadBytes(bs: seq<byte>, n: nat): (p: Parse<seq<byte>>)
    ensures p.Parsed? ==> |p.rest| == |bs| - n
  {
    if |bs| < n then Eof else Parsed(bs[..n], bs[n..])
  }

  function ReadI64(bs: seq<byte>): (p: Parse<int>)
    ensures p.Parsed? ==> |p.rest| == |bs| - 8
  {
    var (word, rest) :- ReadBytes(bs, 8);
    var n := FromLe(word);
    Parsed(if n >= TWO_63 then n - TWO_64 else n, rest)
  }

  function ReadString(bs: seq<byte>): (p: Parse<string>)
    ensures p.Parsed? ==> |p.rest| < |bs|
  {
    var (word, rest) :- ReadBytes(bs, 8);
    var (text, rest') :- ReadBytes(rest, FromLe(word));
    var s := Utf8.Decode(text);
    if s.None? then Corrupt else Parsed(s.value, rest')
  }

  function ReadOption(bs: seq<byte>): (p: Parse<Option<string>>)
    ensures p.Parsed? ==> |p.rest| < |bs|
  {
    var (tag, rest) :- ReadBytes(bs, 1);
    if tag[0] == 0 then Parsed(None, rest)
    else if tag[0] == 1 then
      var (s, rest') :- ReadString(rest);
      Parsed(Some(s), rest')
    else Corrupt
  }

  function ReadRecord(bs: seq<byte>): (p: Parse<LogRecord>)
    ensures p.Parsed? ==> |p.rest| < |bs|
  {
    var (timestampUs, r1) :- ReadI64(bs);
    var (traceId, r2) :- ReadOption(r1);
    var (level, r3) :- ReadString(r2);
    var (service, r4) :- ReadString(r3);
    var (message, r5) :- ReadString(r4);
    var (rawBody, r6) :- ReadOption(r5);
    Parsed(LogRecord(timestampUs, traceId, level, service, message, rawBody), r6)
  }

  datatype Replayed = Recovered(records: seq<LogRecord>) | Corrupted

  /** What `replay_wal` returns for a file holding `bs`. */
  function Replay(bs: seq<byte>): Replayed
    decreases |bs|
  {
    match ReadRecord(bs)
    case Eof => Recovered([])
    case Corrupt => Corrupted
    case Parsed(r, rest) =>
      match Replay(rest)
      case Corrupted => Corrupted
      case Recovered(rs) => Recovered([r] + rs)
  }

  // ---------------------------------------------------------- the two loops

  function Preceded(done: seq<LogRecord>, r: Replayed): Replayed {
    match r
    case Corrupted => Corrupted
    case Recovered(rs) => Recovered(done + rs)
  }

  lemma ReplayStep(done: seq<LogRecord>, bs: seq<byte>)
    ensures match ReadRecord(bs)
            case Eof => Preceded(done, Replay(bs)) == Recovered(done)
            case Corrupt => Preceded(done, Replay(bs)) == Corrupted
            case Parsed(r, rest) => Preceded(done, Replay(bs)) == Preceded(done + [r], Replay(rest))
  {
    hide ReadRecord;
    match ReadRecord(bs)
    case Eof =>
    case Corrupt =>
    case Parsed(r, rest) =>
      var tail := Replay(rest);
      assert tail.Recovered? ==> done + ([r] + tail.records) == done + [r] + tail.records;
  }

  /** What opening the file gives. */
  datatype Opened = Missing | Unopenable | Contents(bs: seq<byte>)

  datatype Outcome<T> = Ok(value: T) | IoError | BincodeError

  /** A missing file is an empty log. */
  function Read(file: Opened): Outcome<seq<LogRecord>> {
    match file
    case Missing => Ok([])
    case Unopenable => IoError
    case Contents(bs) => (match Replay(bs) case Recovered(rs) => Ok(rs) case Corrupted => BincodeError)
  }

  /** `replay_wal`. */
  method ReplayWal(file: Opened) returns (r: Outcome<seq<LogRecord>>)
    ensures r == Read(file)
  {
    if file.Missing? {
      return Ok([]);
    } else if file.Unopenable? {
      return IoError;
    }
    hide ReadRecord, Replay;
    var reader, out := file.bs, [];
    while true
      invariant Replay(file.bs) == Preceded(out, Replay(reader))
      decreases |reader|
    {
      ReplayStep(out, reader);
      match ReadRecord(reader)
      case Parsed(record, rest) =>
        out := out + [record];
        reader := rest;
      case Eof => return Ok(out);
      case Corrupt => return BincodeError;
    }
  }

  /** `record_count` agrees with `replay_wal` on every file, error for error. */
  method RecordCount(file: Opened) returns (n: Outcome<nat>)
    ensures n == match Read(file)
                 case Ok(rs) => Ok(|rs|)
                 case IoError => IoError
                 case BincodeError => BincodeError
  {
    if file.Missing? {
      return Ok(0);
    } else if file.Unopenable? {
      return IoError;
    }
    hide ReadRecord;
    var reader, count := file.bs, 0;
    while true
      invariant var whole, tail := Replay(file.bs), Replay(reader);
                && whole.Recovered? == tail.Recovered?
                && (tail.Recovered? ==> |whole.records| == count + |tail.records|)
      decreases |reader|
    {
      match ReadRecord(reader)
      case Parsed(_, rest) =>
        count := count + 1;
        reader := rest;
      case Eof => return Ok(count);
      case Corrupt => return BincodeError;
    }
  }

  // ------------------------------------------------------------ round trips

  lemma {:induction false} LeRoundTrip(n: nat, width: nat)
    requires n < Pow256(width)
    ensures FromLe(Le(n, width)) == n
  {
    if width > 0 {
      assert Le(n, width)[1..] == Le(n / 256, width - 1);
      LeRoundTrip(n / 256, width - 1);
    }
  }

  lemma EightBytes()
    ensures Pow256(8) == TWO_64
  {
    assert Pow256(2) == 65536;
    assert Pow256(4) == 256 * (256 * Pow256(2));
    assert Pow256(6) == 256 * (256 * Pow256(4));
  }

  lemma I64RoundTrip(n: int, rest: seq<byte>)
    requires IsI64(n)
    ensures ReadI64(EncodeI64(n) + rest) == Parsed(n, rest)
  {
    EightBytes();
    LeRoundTrip(if n < 0 then n + TWO_64 else n, 8);
    var bs := EncodeI64(n) + rest;
    assert bs[..8] == EncodeI64(n) && bs[8..] == rest;
  }

  lemma StringRoundTrip(s: string, rest: seq<byte>)
    requires FitsString(s)
    ensures ReadString(EncodeString(s) + rest) == Parsed(s, rest)
  {
    hide FromLe, Le;
    var text := Utf8.Encode(s);
    EightBytes();
    LeRoundTrip(|text|, 8);
    Utf8.RoundTrip(s);
    var bs := EncodeString(s) + rest;
    assert bs[..8] == Le(|text|, 8) && bs[8..] == text + rest;
    assert (text + rest)[..|text|] == text && (text + rest)[|text|..] == rest;
  }

  lemma OptionRoundTrip(o: Option<string>, rest: seq<byte>)
    requires o.Some? ==> FitsString(o.value)
    ensures ReadOption(EncodeOption(o) + rest) == Parsed(o, rest)
  {
    hide EncodeString, ReadString;
    var bs := EncodeOption(o) + rest;
    if o.Some? {
      StringRoundTrip(o.value, rest);
      assert bs[..1] == [1] && bs[1..] == EncodeString(o.value) + rest;
    } else {
      assert bs[..1] == [0] && bs[1..] == rest;
    }
  }

  /** A record reads back from the front of any log. */
  lemma RecordRoundTrip(r: LogRecord, rest: seq<byte>)
    requires Encodable(r)
    ensures ReadRecord(EncodeRecord(r) + rest) == Parsed(r, rest)
  {
    hide EncodeI64, EncodeOption, EncodeString, ReadI64, ReadOption, ReadString, FitsString;
    var a, b, c, d, e, f := EncodeI64(r.timestampUs), EncodeOption(r.traceId), EncodeString(r.level),
                            EncodeString(r.service), EncodeString(r.message), EncodeOption(r.rawBody);
    Assoc(a, b + (c + (d + (e + f))), rest);
    Assoc(b, c + (d + (e + f)), rest);
    Assoc(c, d + (e + f), rest);
    Assoc(d, e + f, rest);
    Assoc(e, f, rest);
    I64RoundTrip(r.timestampUs, b + (c + (d + (e + (f + rest)))));
    OptionRoundTrip(r.traceId, c + (d + (e + (f + rest))));
    StringRoundTrip(r.level, d + (e + (f + rest)));
    StringRoundTrip(r.service, e + (f + rest));
    StringRoundTrip(r.message, f + rest);
    OptionRoundTrip(r.rawBody, rest);
  }

  // ------------------------- more bytes never change a verdict already reached

  lemma BytesStable(bs: seq<byte>, n: nat, more: seq<byte>)
    ensures ReadBytes(bs, n).Parsed? ==>
              ReadBytes(bs + more, n) == Parsed(ReadBytes(bs, n).value, ReadBytes(bs, n).rest + more)
  {
    if n <= |bs| {
      assert (bs + more)[..n] == bs[..n] && (bs + more)[n..] == bs[n..] + more;
    }
  }

  /** `q` is the verdict `p`, with `more` left over behind it. */
  ghost predicate Extends<T>(p: Parse<T>, q: Parse<T>, more: seq<byte>) {
    && (p.Parsed? ==> q == Parsed(p.value, p.rest + more))
    && (p.Corrupt? ==> q == Corrupt)
  }

  lemma I64Stable(bs: seq<byte>, more: seq<byte>)
    ensures Extends(ReadI64(bs), ReadI64(bs + more), more)
  {
    BytesStable(bs, 8, more);
  }

  lemma StringStable(bs: seq<byte>, more: seq<byte>)
    ensures Extends(ReadString(bs), ReadString(bs + more), more)
  {
    BytesStable(bs, 8, more);
    if |bs| >= 8 {
      BytesStable(bs[8..], FromLe(bs[..8]), more);
    }
  }

  lemma OptionStable(bs: seq<byte>, more: seq<byte>)
    ensures Extends(ReadOption(bs), ReadOption(bs + more), more)
  {
    hide ReadString;
    BytesStable(bs, 1, more);
    if |bs| >= 1 {
      StringStable(bs[1..], more);
    }
  }

  lemma RecordStable(bs: seq<byte>, more: seq<byte>)
    ensures Extends(ReadRecord(bs), ReadRecord(bs + more), more)
  {
    hide ReadI64, ReadOption, ReadString;
    I64Stable(bs, more);
    var p1 := ReadI64(bs);
    if p1.Parsed? {
      OptionStable(p1.rest, more);
      var p2 := ReadOption(p1.rest);
      if p2.Parsed? {
        StringStable(p2.rest, more);
        var p3 := ReadString(p2.rest);
        if p3.Parsed? {
          StringStable(p3.rest, more);
          var p4 := ReadString(p3.rest);
          if p4.Parsed? {
            StringStable(p4.rest, more);
            var p5 := ReadString(p4.rest);
            if p5.Parsed? {
              OptionStable(p5.rest, more);
            }
          }
        }
      }
    }
  }

  /** The encoding is prefix-free: a record cut short is always reported as end of log. */
  lemma CutRecordIsEof(r: LogRecord, k: nat)
    requires Encodable(r) && k < |EncodeRecord(r)|
    ensures ReadRecord(EncodeRecord(r)[..k]) == Eof
  {
    hide ReadRecord, EncodeRecord;
    var bs := EncodeRecord(r);
    RecordRoundTrip(r, []);
    assert bs + [] == bs && bs[..k] + bs[k..] == bs;
    RecordStable(bs[..k], bs[k..]);
  }

  // --------------------------------------------------------------- theorems

  /** How many whole records lie in the first `k` bytes. */
  function Fit(rs: seq<LogRecord>, k: nat): (n: nat)
    requires AllEncodable(rs)
    ensures n <= |rs|
  {
    if rs == [] || k < |EncodeRecord(rs[0])| then 0 else 1 + Fit(rs[1..], k - |EncodeRecord(rs[0])|)
  }

  lemma {:induction false} FitIsLargest(rs: seq<LogRecord>, k: nat)
    requires AllEncodable(rs)
    ensures |EncodeLog(rs[..Fit(rs, k)])| <= k
    ensures Fit(rs, k) < |rs| ==> k < |EncodeLog(rs[..Fit(rs, k) + 1])|
  {
    hide EncodeRecord;
    var n := Fit(rs, k);
    if rs != [] {
      if k < |EncodeRecord(rs[0])| {
        assert rs[..1][0] == rs[0] && rs[..1][1..] == [];
      } else {
        FitIsLargest(rs[1..], k - |EncodeRecord(rs[0])|);
        assert rs[..n][0] == rs[0] && rs[..n][1..] == rs[1..][..n - 1];
        if n < |rs| {
          assert rs[..n + 1][0] == rs[0] && rs[..n + 1][1..] == rs[1..][..n];
        }
      }
    }
  }

  /** Whatever byte the log is cut at, replay returns exactly the records that
      fit whole (`FitIsLargest`), and never an error. */
  lemma {:induction false} ReplayOfCutLog(rs: seq<LogRecord>, k: nat)
    requires AllEncodable(rs) && k <= |EncodeLog(rs)|
    ensures Replay(EncodeLog(rs)[..k]) == Recovered(rs[..Fit(rs, k)])
  {
    hide EncodeRecord, ReadRecord;
    var log := EncodeLog(rs);
    if rs == [] {
      EmptyIsEof();
    } else {
      var first, rest := EncodeRecord(rs[0]), EncodeLog(rs[1..]);
      if k < |first| {
        CutRecordIsEof(rs[0], k);
        assert log[..k] == first[..k];
      } else {
        var j := k - |first|;
        CutBehind(first, rest, k);
        RecordRoundTrip(rs[0], rest[..j]);
        ReplayOfCutLog(rs[1..], j);
        OneMore(rs, Fit(rs[1..], j));
      }
    }
  }

  lemma CutBehind<T>(a: seq<T>, b: seq<T>, k: nat)
    requires |a| <= k <= |a| + |b|
    ensures (a + b)[..k] == a + b[..k - |a|]
  {
  }

  lemma OneMore<T>(s: seq<T>, n: nat)
    requires n < |s|
    ensures s[..1 + n] == [s[0]] + s[1..][..n]
  {
  }

  lemma EmptyIsEof()
    ensures ReadRecord([]) == Eof
  {
  }

  /** Uncut, the log replays in full, whatever follows it is read next. */
  lemma {:induction false} ReplayOfWholeLog(rs: seq<LogRecord>, tail: seq<byte>)
    requires AllEncodable(rs)
    ensures Replay(EncodeLog(rs) + tail) ==
            match Replay(tail) { case Corrupted => Corrupted case Recovered(more) => Recovered(rs + more) }
  {
    hide EncodeRecord, ReadRecord;
    if rs == [] {
      assert EncodeLog(rs) + tail == tail;
    } else {
      Assoc(EncodeRecord(rs[0]), EncodeLog(rs[1..]), tail);
      RecordRoundTrip(rs[0], EncodeLog(rs[1..]) + tail);
      ReplayOfWholeLog(rs[1..], tail);
      hide EncodeLog;
      var r := Replay(tail);
      if r.Recovered? {
        Assoc([rs[0]], rs[1..], r.records);
        assert [rs[0]] + rs[1..] == rs;
      }
    }
  }

  /** Corruption in the middle surfaces: nothing that follows a malformed record can hide it. */
  lemma MidFileCorruptionSurfaces(rs: seq<LogRecord>, bad: seq<byte>, more: seq<byte>)
    requires AllEncodable(rs) && ReadRecord(bad).Corrupt?
    ensures Replay(EncodeLog(rs) + bad + more) == Corrupted
  {
    hide ReadRecord;
    RecordStable(bad, more);
    Assoc(EncodeLog(rs), bad, more);
    ReplayOfWholeLog(rs, bad + more);
  }

  lemma {:induction false} WholePrefixFits(rs: seq<LogRecord>, m: nat, k: nat)
    requires AllEncodable(rs) && m <= |rs| && |EncodeLog(rs[..m])| <= k
    ensures m <= Fit(rs, k)
  {
    hide EncodeRecord;
    if m > 0 {
      assert rs[..m][0] == rs[0] && rs[..m][1..] == rs[1..][..m - 1];
      WholePrefixFits(rs[1..], m - 1, k - |EncodeRecord(rs[0])|);
    }
  }

  /** The synced part of a log survives a cut at any later byte, and what comes
      back is a cut at a record boundary. */
  lemma SyncedRecordsSurvive(rs: seq<LogRecord>, synced: nat, k: nat)
    requires AllEncodable(rs) && synced <= |rs|
    requires |EncodeLog(rs[..synced])| <= k <= |EncodeLog(rs)|
    ensures exists keep :: synced <= keep <= |rs| && Replay(EncodeLog(rs)[..k]) == Recovered(rs[..keep])
  {
    WholePrefixFits(rs, synced, k);
    ReplayOfCutLog(rs, k);
  }

  // -------------------------------------- appending behind a torn record

  lemma LowByte(bs: seq<byte>)
    requires bs != []
    ensures FromLe(bs) % 256 == bs[0]
  {
    assert FromLe(bs) == bs[0] + 256 * FromLe(bs[1..]);
    hide FromLe;
    LowDigit(bs[0], FromLe(bs[1..]));
  }

  lemma LowDigit(b: int, n: nat)
    requires 0 <= b < 256
    ensures (b + 256 * n) % 256 == b
  {
  }

  /** A small record whose encoding starts with the byte `b`. */
  function Probe(b: byte): LogRecord {
    LogRecord(b as int, None, "", "", "", None)
  }

  lemma ProbeEncodable(b: byte)
    ensures Encodable(Probe(b))
  {
  }

  /** Behind bytes starting with another byte, the probe is not what is read. */
  lemma ProbeMissed(bs: seq<byte>, b: byte)
    requires bs != [] && bs[0] != b
    ensures forall rest :: ReadRecord(bs) != Parsed(Probe(b), rest)
  {
    hide ReadOption, ReadString, FromLe;
    if |bs| >= 8 {
      LowByte(bs[..8]);
    }
  }

  /** `WalWriter::open` appends behind whatever is there. With a record torn at
      byte `k` at the end of the file, every later append replays in full if and
      only if nothing of the torn record is there (`k == 0`). */
  lemma AppendBehindTornRecord(rs: seq<LogRecord>, torn: LogRecord, k: nat)
    requires AllEncodable(rs) && Encodable(torn) && k < |EncodeRecord(torn)|
    ensures (forall later | AllEncodable(later) ::
               Replay(EncodeLog(rs) + (EncodeRecord(torn)[..k] + EncodeLog(later))) == Recovered(rs + later))
            <==> k == 0
  {
    hide EncodeRecord, ReadRecord;
    var tail := EncodeRecord(torn)[..k];
    if k == 0 {
      forall later | AllEncodable(later)
        ensures Replay(EncodeLog(rs) + (tail + EncodeLog(later))) == Recovered(rs + later)
      {
        assert tail + EncodeLog(later) == EncodeLog(later) + [];
        ReplayOfWholeLog(later, []);
        EmptyIsEof();
        assert later + [] == later;
        ReplayOfWholeLog(rs, EncodeLog(later) + []);
      }
    } else {
      var b := (tail[0] as int + 1) % 256;
      var later := [Probe(b)];
      ProbeEncodable(b);
      var bs := tail + EncodeLog(later);
      ProbeMissed(bs, b);
      ReplayOfWholeLog(rs, bs);
      var r := Replay(bs);
      assert r.Recovered? && rs + r.records == rs + later ==> r.records == later by {
        if r.Recovered? && rs + r.records == rs + later {
          assert (rs + r.records)[|rs|..] == r.records && (rs + later)[|rs|..] == later;
        }
      }
    }
  }

  lemma {:induction false} LeastAndGreatest(width: nat)
    ensures Le(0, width) == seq(width, _ => 0)
    ensures Pow256(width) >= 1 && Le(Pow256(width) - 1, width) == seq(width, _ => 255)
  {
    if width > 0 {
      LeastAndGreatest(width - 1);
      var top := Pow256(width - 1) - 1;
      assert Pow256(width) - 1 == 256 * top + 255;
      assert (256 * top + 255) % 256 == 255 && (256 * top + 255) / 256 == top;
    }
  }

  /** Numbers have their least byte first, and negative ones are in two's complement. */
  lemma NumbersLookLike()
    ensures Le(0, 8) == [0, 0, 0, 0, 0, 0, 0, 0] && Le(1, 8) == [1, 0, 0, 0, 0, 0, 0, 0]
    ensures EncodeI64(-1) == [255, 255, 255, 255, 255, 255, 255, 255]
  {
    LeastAndGreatest(7);
    LeastAndGreatest(8);
    assert Le(1, 8) == [1] + Le(0, 7);
    EightBytes();
    hide Le, Pow256;
  }

  lemma LettersLookLike(c: char)
    requires 0 <= c as int < 0x80
    ensures Utf8.Encode([c]) == [c as int] && EncodeString([c]) == [1, 0, 0, 0, 0, 0, 0, 0] + [c as int]
    ensures Utf8.Encode([]) == [] && EncodeString([]) == [0, 0, 0, 0, 0, 0, 0, 0]
  {
    assert [c][1..] == [] && Utf8.Encode([]) == [];
    NumbersLookLike();
    hide Le;
  }

  /** The layout: the time in eight bytes, least first; a tag before what may be missing;
      and each text behind its length in eight bytes. */
  lemma RecordsLookLike()
    ensures Encodable(LogRecord(-1, None, "A", "b", "", Some("c")))
    ensures EncodeRecord(LogRecord(-1, None, "A", "b", "", Some("c")))
            == [255, 255, 255, 255, 255, 255, 255, 255] + [0] + [1, 0, 0, 0, 0, 0, 0, 0, 65]
               + [1, 0, 0, 0, 0, 0, 0, 0, 98] + [0, 0, 0, 0, 0, 0, 0, 0] + [1, 1, 0, 0, 0, 0, 0, 0, 0, 99]
  {
    NumbersLookLike();
    LettersLookLike('A');
    LettersLookLike('b');
    LettersLookLike('c');
    hide Utf8.Encode, EncodeString, EncodeI64;
  }

  // ------------------------------------------- only encodings are read back

  lemma {:induction false} LeIsExact(bs: seq<byte>)
    ensures Le(FromLe(bs), |bs|) == bs && FromLe(bs) < Pow256(|bs|)
  {
    if bs != [] {
      LeIsExact(bs[1..]);
      LowDigit(bs[0], FromLe(bs[1..]));
      assert bs == [bs[0]] + bs[1..];
    }
  }

  lemma EightBytesBound(bs: seq<byte>)
    requires |bs| == 8
    ensures Le(FromLe(bs), 8) == bs && FromLe(bs) < TWO_64
  {
    LeIsExact(bs);
    EightBytes();
    hide Le, FromLe, Pow256;
  }

  lemma I64IsExact(bs: seq<byte>)
    requires ReadI64(bs).Parsed?
    ensures var p := ReadI64(bs); IsI64(p.value) && bs == EncodeI64(p.value) + p.rest
  {
    EightBytesBound(bs[..8]);
    hide Le, FromLe;
  }

  lemma StringParts(bs: seq<byte>)
    requires ReadString(bs).Parsed?
    ensures |bs| >= 8
    ensures var (n, rest, p) := (FromLe(bs[..8]), bs[8..], ReadString(bs));
            n <= |rest| && Utf8.Decode(rest[..n]) == Some(p.value) && p.rest == rest[n..]
  {
    hide FromLe, Utf8.Decode;
  }

  lemma CutInThree(bs: seq<byte>, n: nat)
    requires |bs| >= 8 && n <= |bs[8..]|
    ensures bs == bs[..8] + bs[8..][..n] + bs[8..][n..] && |bs[8..][..n]| == n
  {
  }

  lemma EncodesAs(s: string, word: seq<byte>, text: seq<byte>)
    requires |word| == 8 && Utf8.Encode(s) == text && FromLe(word) == |text|
    ensures FitsString(s) && EncodeString(s) == word + text
  {
    EightBytesBound(word);
    hide Le, FromLe;
  }

  lemma StringIsExact(bs: seq<byte>)
    requires ReadString(bs).Parsed?
    ensures var p := ReadString(bs); FitsString(p.value) && bs == EncodeString(p.value) + p.rest
  {
    StringParts(bs);
    hide *;
    var n := FromLe(bs[..8]);
    CutInThree(bs, n);
    Utf8.DecodeIsExact(bs[8..][..n]);
    EncodesAs(ReadString(bs).value, bs[..8], bs[8..][..n]);
  }

  lemma OptionIsExact(bs: seq<byte>)
    requires ReadOption(bs).Parsed?
    ensures var p := ReadOption(bs);
            (p.value.Some? ==> FitsString(p.value.value)) && bs == EncodeOption(p.value) + p.rest
  {
    hide ReadString, FitsString, EncodeString;
    assert bs == [bs[0]] + bs[1..];
    if bs[0] == 1 {
      StringIsExact(bs[1..]);
    }
  }

  /** Bytes read as a record are its encoding, and what is left is what follows it. */
  lemma RecordIsExact(bs: seq<byte>)
    requires ReadRecord(bs).Parsed?
    ensures var p := ReadRecord(bs); Encodable(p.value) && bs == EncodeRecord(p.value) + p.rest
  {
    hide ReadI64, ReadOption, ReadString, IsI64, FitsString, EncodeI64, EncodeOption, EncodeString;
    I64IsExact(bs);
    OptionIsExact(ReadI64(bs).rest);
    var r2 := ReadOption(ReadI64(bs).rest).rest;
    StringIsExact(r2);
    StringIsExact(ReadString(r2).rest);
    StringIsExact(ReadString(ReadString(r2).rest).rest);
    OptionIsExact(ReadString(ReadString(ReadString(r2).rest).rest).rest);
  }

  /** Replay invents nothing: whatever the bytes, the records it returns are those the
      log begins with. */
  lemma {:induction false} ReplayInventsNothing(bs: seq<byte>)
    requires Replay(bs).Recovered?
    ensures AllEncodable(Replay(bs).records) && EncodeLog(Replay(bs).records) <= bs
    decreases |bs|
  {
    hide ReadRecord, Encodable, EncodeRecord;
    match ReadRecord(bs)
    case Eof =>
    case Parsed(r, rest) =>
      RecordIsExact(bs);
      ReplayInventsNothing(rest);
      var rs := Replay(rest).records;
      assert ([r] + rs)[1..] == rs;
      assert EncodeLog([r] + rs) == EncodeRecord(r) + EncodeLog(rs);
  }
}
