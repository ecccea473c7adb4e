/**
 The write-ahead log as bytes: framed records [4B length | 4B checksum | payload], little endian.
 The payload codec and the checksum are parameters; nothing is assumed about the checksum.
 */
module WalBytes {
  import opened Types
  import opened WalRecords

  newtype Byte = x: int | 0 <= x < 256

  type Bytes = seq<Byte>

  const TWO32 := 0x1_0000_0000

  const MAX_RECORD_SIZE := 0x400_0000 // 64 MiB

  type U32 = x: int | 0 <= x < TWO32

  // ---- Numbers ---------------------------------------------------------------------------------

  /** PutUint32, little endian. */
  function Put32(n: U32): (s: Bytes)
    ensures |s| == 4 && Get32(s) == n
  {
    var n1 := n / 256;
    var n2 := n1 / 256;
    var n3 := n2 / 256;
    [(n % 256) as Byte, (n1 % 256) as Byte, (n2 % 256) as Byte, n3 as Byte]
  }

  function Get32(s: Bytes): U32
    requires |s| == 4
  {
    s[0] as int + 256 * (s[1] as int + 256 * (s[2] as int + 256 * (s[3] as int)))
  }

  /** The least significant byte comes first. */
  lemma LittleEndian(n: U32)
    ensures var s := Put32(n);
      n == s[0] as int + 0x100 * s[1] as int + 0x1_0000 * s[2] as int + 0x100_0000 * s[3] as int
  {
  }

  // ---- Frames ----------------------------------------------------------------------------------

  datatype Decoded = Garbage | UnknownType | Record(record: WalRecord)

  datatype Codec = Codec(encode: WalRecord -> Bytes, decode: Bytes -> Decoded, sum: Bytes -> U32)

  /** writeRecord's buffer, for any number in the place of the checksum; the length is truncated to 32
      bits as the conversion in the code does. */
  function Framed(payload: Bytes, sum: U32): Bytes { Put32(|payload| % TWO32) + Put32(sum) + payload }

  function Frame(c: Codec, r: WalRecord): (s: Bytes)
    ensures |s| == 8 + |c.encode(r)|
  {
    Framed(c.encode(r), c.sum(c.encode(r)))
  }

  function Frames(c: Codec, rs: seq<WalRecord>): Bytes {
    if rs == [] then [] else Frame(c, rs[0]) + Frames(c, rs[1..])
  }

  /** The codec brings the record back, and its payload is of a size the loader accepts. */
  predicate Fits(c: Codec, r: WalRecord) {
    c.decode(c.encode(r)) == Record(r) && 1 <= |c.encode(r)| <= MAX_RECORD_SIZE
  }

  ghost predicate AllFit(c: Codec, rs: seq<WalRecord>) { forall r | r in rs :: Fits(c, r) }

  /** Reads the record at the front of the bytes: what it decodes to and how many bytes it takes;
      None where the loader sees the end of the valid log. */
  function ReadRecord(c: Codec, s: Bytes): (r: Option<(Decoded, nat)>)
    ensures r.Some? ==> 8 < r.value.1 <= |s|
  {
    if |s| < 8 then None
    else
      var length, sum := Get32(s[0..4]), Get32(s[4..8]);
      if length == 0 || length > MAX_RECORD_SIZE || |s| < 8 + length then None
      else
        var payload := s[8..8 + length];
        if c.sum(payload) != sum || c.decode(payload) == Garbage then None else Some((c.decode(payload), 8 + length))
  }

  /** Whatever follows it, a payload is read exactly when it is not empty, not above 64 MiB, the stored
      number is its checksum and it decodes. */
  lemma ReadsFramed(c: Codec, payload: Bytes, sum: U32, rest: Bytes)
    requires |payload| < TWO32
    ensures ReadRecord(c, Framed(payload, sum) + rest) ==
      if 1 <= |payload| <= 64 * 1024 * 1024 && sum == c.sum(payload) && c.decode(payload) != Garbage
      then Some((c.decode(payload), 8 + |payload|)) else None
  {
    hide Put32, Get32;
    var s := Framed(payload, sum) + rest;
    assert s[0..4] == Put32(|payload|);
    assert s[4..8] == Put32(sum);
    assert s[8..] == payload + rest;
    if 1 <= |payload| <= MAX_RECORD_SIZE { assert s[8..8 + |payload|] == payload; }
  }

  /** A record is read back, whatever follows it, exactly when its payload is not empty, not above
      the limit, and decodes: an oversized record is written but never loaded. */
  lemma ReadBack(c: Codec, r: WalRecord, rest: Bytes)
    requires |c.encode(r)| < TWO32
    ensures ReadRecord(c, Frame(c, r) + rest) ==
      if 1 <= |c.encode(r)| <= MAX_RECORD_SIZE && c.decode(c.encode(r)) != Garbage
      then Some((c.decode(c.encode(r)), |Frame(c, r)|)) else None
  {
    hide ReadRecord, Put32;
    ReadsFramed(c, c.encode(r), c.sum(c.encode(r)), rest);
  }

  /** A frame that is cut short anywhere is not read. */
  lemma TornFrame(c: Codec, r: WalRecord, k: nat)
    requires |c.encode(r)| < TWO32 && k < |Frame(c, r)|
    ensures ReadRecord(c, Frame(c, r)[..k]) == None
  {
    hide Get32;
    if k >= 8 {
      var s := Frame(c, r)[..k];
      assert s[0..4] == Put32(|c.encode(r)|);
    }
  }

  // ---- Loading ---------------------------------------------------------------------------------

  /** Either the error the loader refuses to guess about, or the entries and the length of the valid
      part of the file. */
  datatype LoadResult = Failed | Loaded(entries: seq<LogEntry>, valid: nat)

  function LoadFrom(c: Codec, s: Bytes, entries: seq<LogEntry>): (r: LoadResult)
    ensures r.Loaded? ==> r.valid <= |s|
    decreases |s|
  {
    match ReadRecord(c, s)
    case None => Loaded(entries, 0)
    case Some((UnknownType, _)) => Failed
    case Some((Garbage, _)) => Failed
    case Some((Record(r), n)) =>
      match ReplayOne(entries, r)
      case None => Failed
      case Some(more) =>
        match LoadFrom(c, s[n..], more)
        case Failed => Failed
        case Loaded(es, valid) => Loaded(es, n + valid)
  }

  lemma FirstFrame(c: Codec, rs: seq<WalRecord>)
    requires rs != []
    ensures Frames(c, rs) == Frame(c, rs[0]) + Frames(c, rs[1..])
  {
  }

  lemma {:induction false} FramesAppend(c: Codec, a: seq<WalRecord>, b: seq<WalRecord>)
    ensures Frames(c, a + b) == Frames(c, a) + Frames(c, b)
  {
    hide Frame;
    if a == [] {
      assert a + b == b;
    } else {
      hide Frames;
      FirstFrame(c, a);
      FirstFrame(c, a + b);
      FramesAppend(c, a[1..], b);
      assert (a + b)[0] == a[0] && (a + b)[1..] == a[1..] + b;
      Regroup(Frame(c, a[0]), Frames(c, a[1..]), Frames(c, b));
    }
  }

  lemma Regroup(x: Bytes, y: Bytes, z: Bytes)
    ensures x + (y + z) == x + y + z
  {
  }

  lemma OneFrame(c: Codec, done: seq<WalRecord>, r: WalRecord)
    ensures Frames(c, done + [r]) == Frames(c, done) + Frame(c, r)
  {
    hide Frame;
    FramesAppend(c, done, [r]);
    assert [r][1..] == [];
    assert Frames(c, [r]) == Frame(c, r) + [];
  }

  /** A load that started k bytes further on, seen from the start. */
  function Shifted(k: nat, r: LoadResult): LoadResult {
    match r
    case Failed => Failed
    case Loaded(entries, valid) => Loaded(entries, k + valid)
  }

  /** The loader's step over one whole record. */
  lemma LoadStep(c: Codec, r: WalRecord, tail: Bytes, entries: seq<LogEntry>)
    requires Fits(c, r)
    ensures LoadFrom(c, Frame(c, r) + tail, entries) ==
      match ReplayOne(entries, r)
      case None => Failed
      case Some(more) => Shifted(|Frame(c, r)|, LoadFrom(c, tail, more))
  {
    hide ReadRecord, ReplayOne, Frame;
    ReadBack(c, r, tail);
    assert (Frame(c, r) + tail)[|Frame(c, r)|..] == tail;
  }

  /** What loading gives when `tail` comes behind the records `rs`. */
  function LoadedBehind(c: Codec, rs: seq<WalRecord>, tail: Bytes): LoadResult {
    match Replay(rs)
    case None => Failed
    case Some(entries) => Shifted(|Frames(c, rs)|, LoadFrom(c, tail, entries))
  }

  /** Loading records and whatever comes behind them is loading that on top of the replayed records. */
  lemma {:induction false} LoadSplit(c: Codec, rs: seq<WalRecord>, tail: Bytes)
    requires AllFit(c, rs)
    ensures LoadFrom(c, Frames(c, rs) + tail, []) == LoadedBehind(c, rs, tail)
    decreases |rs|
  {
    hide LoadFrom, Frame, Fits, ReplayOne;
    if rs == [] {
      assert Frames(c, rs) + tail == tail;
    } else {
      var done, r := rs[..|rs| - 1], rs[|rs| - 1];
      assert rs == done + [r];
      OneFrame(c, done, r);
      Regroup(Frames(c, done), Frame(c, r), tail);
      LoadSplit(c, done, Frame(c, r) + tail);
      assert r in rs;
      if Replay(done).Some? { LoadStep(c, r, tail, Replay(done).value); }
    }
  }

  /** What loading a file of the records `rs` gives: what replaying them gives. */
  function LoadedFrom(c: Codec, rs: seq<WalRecord>): LoadResult {
    match Replay(rs)
    case None => Failed
    case Some(entries) => Loaded(entries, |Frames(c, rs)|)
  }

  /** A tail at which the loader sees the end of the log is dropped, and nothing else. */
  lemma TailIsCut(c: Codec, rs: seq<WalRecord>, tail: Bytes)
    requires AllFit(c, rs) && ReadRecord(c, tail) == None
    ensures LoadFrom(c, Frames(c, rs) + tail, []) == LoadedFrom(c, rs)
    ensures (Frames(c, rs) + tail)[..|Frames(c, rs)|] == Frames(c, rs)
  {
    hide ReadRecord, Frames, Replay;
    LoadSplit(c, rs, tail);
  }

  /** A record whose stored checksum is not that of its payload ends the log: it is dropped together with
      everything behind it, and what was written before it stays. */
  lemma CorruptRecordIsCut(c: Codec, rs: seq<WalRecord>, payload: Bytes, sum: U32, rest: Bytes)
    requires AllFit(c, rs) && |payload| < TWO32 && sum != c.sum(payload)
    ensures LoadFrom(c, Frames(c, rs) + (Framed(payload, sum) + rest), []) == LoadedFrom(c, rs)
    ensures (Frames(c, rs) + (Framed(payload, sum) + rest))[..|Frames(c, rs)|] == Frames(c, rs)
  {
    hide ReadRecord, LoadFrom, Framed, LoadedFrom;
    ReadsFramed(c, payload, sum, rest);
    TailIsCut(c, rs, Framed(payload, sum) + rest);
  }

  /** A sound record of a type nobody knows makes the loader refuse the file, whatever is behind it. */
  lemma UnknownRecordIsRefused(c: Codec, rs: seq<WalRecord>, payload: Bytes, rest: Bytes)
    requires AllFit(c, rs) && 1 <= |payload| <= MAX_RECORD_SIZE && c.decode(payload) == UnknownType
    ensures LoadFrom(c, Frames(c, rs) + (Framed(payload, c.sum(payload)) + rest), []) == Failed
  {
    hide ReadRecord, Framed, Frames, Replay;
    ReadsFramed(c, payload, c.sum(payload), rest);
    LoadSplit(c, rs, Framed(payload, c.sum(payload)) + rest);
  }

  /** Exactly m of the records lie wholly within the first k bytes. */
  ghost predicate WholeBefore(c: Codec, rs: seq<WalRecord>, k: nat, m: nat) {
    m <= |rs| && |Frames(c, rs[..m])| <= k && (m < |rs| ==> k < |Frames(c, rs[..m + 1])|)
  }

  /** A file cut at byte k is the whole records before the cut and the beginning of one more. */
  lemma CutFile(c: Codec, rs: seq<WalRecord>, k: nat, m: nat) returns (tail: Bytes)
    requires AllFit(c, rs) && k <= |Frames(c, rs)| && WholeBefore(c, rs, k, m)
    ensures Frames(c, rs)[..k] == Frames(c, rs[..m]) + tail && ReadRecord(c, tail) == None
  {
    hide Frame, ReadRecord, Frames;
    var whole := Frames(c, rs[..m]);
    assert rs == rs[..m] + rs[m..];
    FramesAppend(c, rs[..m], rs[m..]);
    tail := Frames(c, rs[m..])[..k - |whole|];
    assert Frames(c, rs)[..k] == whole + tail;
    if m < |rs| {
      FirstFrame(c, rs[m..]);
      assert rs[..m + 1] == rs[..m] + [rs[m]] && Fits(c, rs[m]);
      OneFrame(c, rs[..m], rs[m]);
      assert tail == Frame(c, rs[m])[..k - |whole|];
      TornFrame(c, rs[m], k - |whole|);
    } else {
      assert rs[..m] == rs;
      NothingToRead(c, tail);
    }
  }

  lemma NothingToRead(c: Codec, s: Bytes)
    requires |s| < 8
    ensures ReadRecord(c, s) == None
  {
  }

  /** However the file was cut, some number of records is whole. */
  lemma {:induction false} SomeWhole(c: Codec, rs: seq<WalRecord>, k: nat) returns (m: nat)
    requires k <= |Frames(c, rs)|
    ensures WholeBefore(c, rs, k, m)
    decreases |rs|
  {
    hide Frame;
    m := 0;
    if rs != [] {
      assert rs[..1][0] == rs[0] && rs[..1][1..] == [];
      if k >= |Frame(c, rs[0])| {
        m := SomeWhole(c, rs[1..], k - |Frame(c, rs[0])|);
        assert rs[..m + 1][0] == rs[0] && rs[..m + 1][1..] == rs[1..][..m];
        if m + 1 < |rs| { assert rs[..m + 2][0] == rs[0] && rs[..m + 2][1..] == rs[1..][..m + 1]; }
        m := m + 1;
      }
    }
  }

  /** Torn tail: whatever byte a crash cuts the file at, loading yields exactly what the whole records
      before the cut say, and what is kept of the file is exactly those records. */
  lemma TornTail(c: Codec, rs: seq<WalRecord>, k: nat, m: nat)
    requires AllFit(c, rs) && k <= |Frames(c, rs)| && WholeBefore(c, rs, k, m)
    ensures LoadFrom(c, Frames(c, rs)[..k], []) == LoadedFrom(c, rs[..m])
    ensures Frames(c, rs)[..k][..|Frames(c, rs[..m])|] == Frames(c, rs[..m])
  {
    hide LoadFrom, Frames, LoadedFrom, ReadRecord, Fits;
    var tail := CutFile(c, rs, k, m);
    assert AllFit(c, rs[..m]);
    TailIsCut(c, rs[..m], tail);
  }

  /** Round trip: a file that was closed cleanly gives back every record. */
  lemma RoundTrip(c: Codec, rs: seq<WalRecord>)
    requires AllFit(c, rs)
    ensures LoadFrom(c, Frames(c, rs), []) == LoadedFrom(c, rs)
  {
    assert rs[..|rs|] == rs && Frames(c, rs)[..|Frames(c, rs)|] == Frames(c, rs);
    TornTail(c, rs, |Frames(c, rs)|, |rs|);
  }

  /** What is appended after recovering from a torn tail is there, behind the recovered records, at
      the next load. */
  lemma AppendAfterTornTail(c: Codec, rs: seq<WalRecord>, k: nat, m: nat, more: seq<WalRecord>)
    requires AllFit(c, rs) && AllFit(c, more) && k <= |Frames(c, rs)| && WholeBefore(c, rs, k, m)
    ensures LoadFrom(c, Frames(c, rs)[..k][..|Frames(c, rs[..m])|] + Frames(c, more), []) ==
      LoadedFrom(c, rs[..m] + more)
  {
    hide LoadFrom, Frame;
    TornTail(c, rs, k, m);
    FramesAppend(c, rs[..m], more);
    RoundTrip(c, rs[..m] + more);
  }

  // ---- The store -------------------------------------------------------------------------------

  /** FileStore's side of the write-ahead log: the file and the handle's position in it. */
  class FileStore {
    const codec: Codec
    var file: Bytes
    var pos: nat

    /** Opening does not move the position to the end. */
    constructor (codec: Codec, file: Bytes)
      ensures this.codec == codec && this.file == file && pos == 0
    {
      this.codec, this.file, pos := codec, file, 0;
    }

    /** The file is exactly these records, and the next write goes behind them. */
    ghost predicate Holds(rs: seq<WalRecord>)
      reads this
    {
      file == Frames(codec, rs) && pos == |file|
    }

    method WriteRecord(r: WalRecord, ghost rs: seq<WalRecord>)
      requires Holds(rs)
      modifies this
      ensures Holds(rs + [r])
    {
      OneFrame(codec, rs, r);
      var payload := codec.encode(r);
      var buf := Put32(|payload| % TWO32) + Put32(codec.sum(payload)) + payload;
      file := file[..pos] + buf;
      pos := pos + |buf|;
    }

    method AppendEntries(entries: seq<LogEntry>, ghost rs: seq<WalRecord>)
      requires Holds(rs)
      modifies this
      ensures Holds(rs + AppendRecords(entries))
    {
      ghost var all := AppendRecords(entries);
      assert rs + all[..0] == rs;
      for i := 0 to |entries|
        invariant Holds(rs + all[..i])
      {
        assert all[i] == AppendRecord(entries[i]);
        assert rs + all[..i] + [all[i]] == rs + all[..i + 1];
        WriteRecord(AppendRecord(entries[i]), rs + all[..i]);
      }
      assert all[..|entries|] == all;
    }

    method TruncateSuffix(from: nat, ghost rs: seq<WalRecord>)
      requires Holds(rs)
      modifies this
      ensures Holds(rs + [TruncateRecord(from)])
    {
      WriteRecord(TruncateRecord(from), rs);
    }

    /** Build the new file, then swap it in. */
    method Compact(entries: seq<LogEntry>)
      modifies this
      ensures Holds(AppendRecords(entries))
    {
      ghost var all := AppendRecords(entries);
      var tmp: Bytes := [];
      for i := 0 to |entries|
        invariant tmp == Frames(codec, all[..i])
      {
        assert all[i] == AppendRecord(entries[i]) && all[..i] + [all[i]] == all[..i + 1];
        OneFrame(codec, all[..i], all[i]);
        var payload := codec.encode(AppendRecord(entries[i]));
        tmp := tmp + (Put32(|payload| % TWO32) + Put32(codec.sum(payload)) + payload);
      }
      assert all[..|entries|] == all;
      file, pos := tmp, |tmp|;
    }

    /** Reads one record at the given offset; None where the loop of LoadEntries breaks. */
    method ReadAt(offset: nat) returns (r: Option<(Decoded, nat)>)
      requires offset <= |file|
      ensures r == ReadRecord(codec, file[offset..])
    {
      var s := file[offset..];
      if |s| < 8 { return None; }
      var length, sum := Get32(s[0..4]), Get32(s[4..8]);
      if length == 0 || length > MAX_RECORD_SIZE { return None; }
      if |s| < 8 + length { return None; }
      var payload := s[8..8 + length];
      if codec.sum(payload) != sum { return None; }
      var rec := codec.decode(payload);
      if rec == Garbage { return None; }
      return Some((rec, 8 + length));
    }

    /** Drops every entry from the given index on, from the end. */
    static method DropTail(entries: seq<LogEntry>, from: nat) returns (kept: seq<LogEntry>)
      ensures kept == DropFrom(entries, from)
    {
      kept := entries;
      while |kept| > 0 && kept[|kept| - 1].index >= from
        invariant DropFrom(entries, from) == DropFrom(kept, from)
      {
        kept := kept[..|kept| - 1];
      }
    }

    /** One record against the entries so far; None is the error. */
    static method ReplayRecord(entries: seq<LogEntry>, r: WalRecord) returns (more: Option<seq<LogEntry>>)
      ensures more == ReplayOne(entries, r)
    {
      match r {
        case AppendRecord(e) =>
          if |entries| > 0 && e.index != entries[|entries| - 1].index + 1 { return None; }
          return Some(entries + [e]);
        case TruncateRecord(from) =>
          if from < 1 { return None; }
          var kept := DropTail(entries, from);
          return Some(kept);
      }
    }

    /** LoadEntries: None is the refusal. On success the torn tail is gone and the handle is at the end. */
    method LoadEntries() returns (result: Option<seq<LogEntry>>)
      modifies this
      ensures match LoadFrom(codec, old(file), [])
        case Failed => result == None && file == old(file)
        case Loaded(entries, valid) => result == Some(entries) && file == old(file)[..valid] && pos == |file|
      // Records that can be replayed survive any tail at which the log ends, and are all that is kept:
      ensures forall rs, tail | AllFit(codec, rs) && Replay(rs).Some? && ReadRecord(codec, tail) == None ::
        old(file) == Frames(codec, rs) + tail ==> result == Replay(rs) && Holds(rs)
    {
      hide LoadFrom, ReadRecord, ReplayOne, Continues, Frames, Replay, Fits;
      forall rs, tail | AllFit(codec, rs) && ReadRecord(codec, tail) == None && file == Frames(codec, rs) + tail
        ensures LoadFrom(codec, file, []) == LoadedFrom(codec, rs) && file[..|Frames(codec, rs)|] == Frames(codec, rs)
      {
        TailIsCut(codec, rs, tail);
      }
      var entries: seq<LogEntry>, offset: nat := [], 0;
      ContinuesAtStart(codec, file);
      while true
        invariant offset <= |file| && file == old(file) && Continues(codec, file, offset, entries)
        decreases |file| - offset
      {
        var next := ReadAt(offset);
        ContinuesNext(codec, file, offset, entries);
        if next == None { break; }
        if !next.value.0.Record? { return None; }
        var more := ReplayRecord(entries, next.value.0.record);
        if more == None { return None; }
        entries, offset := more.value, offset + next.value.1;
      }
      file := file[..offset];
      pos := offset;
      result := Some(entries);
    }
  }

  /** Loading the whole file is loading the rest of it from here, on top of these entries. */
  ghost predicate Continues(c: Codec, file: Bytes, offset: nat, entries: seq<LogEntry>)
    requires offset <= |file|
  {
    LoadFrom(c, file, []) == Shifted(offset, LoadFrom(c, file[offset..], entries))
  }

  lemma ContinuesAtStart(c: Codec, file: Bytes)
    ensures Continues(c, file, 0, [])
  {
    assert file[0..] == file;
  }

  /** The loader's next step, in each of its outcomes. */
  lemma ContinuesNext(c: Codec, file: Bytes, offset: nat, entries: seq<LogEntry>)
    requires offset <= |file| && Continues(c, file, offset, entries)
    ensures match ReadRecord(c, file[offset..])
      case None => LoadFrom(c, file, []) == Loaded(entries, offset)
      case Some((Record(r), n)) =>
        offset + n <= |file| && (match ReplayOne(entries, r)
          case None => LoadFrom(c, file, []) == Failed
          case Some(more) => Continues(c, file, offset + n, more))
      case Some((_, _)) => LoadFrom(c, file, []) == Failed
  {
    hide ReplayOne;
    var next := ReadRecord(c, file[offset..]);
    if next.Some? { assert file[offset..][next.value.1..] == file[offset + next.value.1..]; }
  }
}
