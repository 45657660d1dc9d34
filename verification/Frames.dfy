/**
 Record frames, commit frames and the committed log.  A log is the frames of each
 batch followed by a commit frame naming its number, range and count.
 */
module Frames {
  import opened Prelude
  import opened Crc
  import opened Encoding

  const FRAME_MAGIC: Bytes := [0x50, 0x54, 0x52, 0x31]
  const MAX_FRAME_SIZE := 16 * 1024 * 1024

  const RECORD_ROLE: Byte := 1
  const RECORD_CODEC: Byte := 2
  const RECORD_POSIT: Byte := 3
  const RECORD_COMMIT: Byte := 255

  datatype PendingRecord = PendingRecord(kind: Byte, version: Byte, flags: nat, payload: Bytes)

  datatype StoredRecord = StoredRecord(record: PendingRecord, sequence: nat)

  datatype StoreError = DataCorruption | Persistence | Invariant

  // ------------------------------------------------------------------ one frame

  function Prefix(r: StoredRecord): (bytes: Bytes)
    ensures |bytes| == 16
  {
    FRAME_MAGIC + [r.record.version, r.record.kind] + Little(r.record.flags, 2) + Little(r.sequence, 8)
  }

  function Content(r: StoredRecord): Bytes {
    Prefix(r) + Uleb(|r.record.payload|) + r.record.payload
  }

  function Sealed(content: Bytes): Bytes {
    content + Little(Checksum(content) as int, 4)
  }

  function Frame(r: StoredRecord): Bytes {
    Sealed(Content(r))
  }

  predicate Fits(payload: Bytes) {
    16 + |Uleb(|payload|)| + |payload| + 4 <= MAX_FRAME_SIZE
  }

  function EncodeFrame(r: StoredRecord): Result<Bytes, StoreError> {
    if Fits(r.record.payload) then Ok(Frame(r)) else Err(Persistence)
  }

  /** What a frame can hold once written: the only version and flags, and a size within the limit. */
  predicate Storable(r: StoredRecord) {
    r.record.version == 1 && r.record.flags == 0 && r.sequence < U64 && Fits(r.record.payload)
  }

  /** The payload and the checksum behind a prefix and a length. */
  function TakePayload(bytes: Bytes, r: StoredRecord, length: nat, rest: Bytes): Option<Parsed<StoredRecord>>
    requires |rest| <= |bytes|
  {
    var head := |bytes| - |rest|;
    if head + length + 4 > MAX_FRAME_SIZE || head + length + 4 > |bytes| then None
    else if Checksum(bytes[..head] + rest[..length]) as int != Number(rest[length..length + 4]) then None
    else Some(Parsed(r.(record := r.record.(payload := rest[..length])), rest[length + 4..]))
  }

  function TakePrefix(bytes: Bytes): Option<StoredRecord>
  {
    if |bytes| < 16 || bytes[..4] != FRAME_MAGIC || bytes[4] != 1 || Number(bytes[6..8]) != 0 then None
    else Some(StoredRecord(PendingRecord(bytes[5], bytes[4], Number(bytes[6..8]), []), Number(bytes[8..16])))
  }

  /** Reads one frame from the front of the committed bytes that remain. */
  function TakeFrame(bytes: Bytes): (frame: Option<Parsed<StoredRecord>>)
    ensures frame.Some? ==> |frame.value.rest| < |bytes|
  {
    match TakePrefix(bytes)
    case None => None
    case Some(r) =>
      match TakeUleb(bytes[16..])
      case None => None
      case Some(p) =>
        UlebBound(bytes[16..]);
        TakePayload(bytes, r, p.value, p.rest)
  }

  lemma PrefixReads(r: StoredRecord, rest: Bytes)
    requires r.record.version == 1 && r.record.flags == 0 && r.sequence < U64
    ensures TakePrefix(Prefix(r) + rest) == Some(r.(record := r.record.(payload := [])))
  {
    var bytes := Prefix(r) + rest;
    Ranges();
    NumberOfLittle(r.record.flags, 2);
    NumberOfLittle(r.sequence, 8);
    assert bytes[..4] == FRAME_MAGIC;
    assert bytes[6..8] == Little(r.record.flags, 2);
    assert bytes[8..16] == Little(r.sequence, 8);
  }

  lemma PrefixIsCanonical(bytes: Bytes)
    requires TakePrefix(bytes).Some?
    ensures var r := TakePrefix(bytes).value;
            bytes[..16] == Prefix(r) && r.record.version == 1 && r.record.flags == 0 && r.sequence < U64 && r.record.payload == []
  {
    Ranges();
    LittleOfNumber(bytes[6..8]);
    LittleOfNumber(bytes[8..16]);
    hide Little;
    hide Number;
    assert bytes[..16] == bytes[..4] + [bytes[4], bytes[5]] + bytes[6..8] + bytes[8..16];
  }

  lemma ChecksumFits(content: Bytes)
    ensures Checksum(content) as int < Range(4)
  {
    hide Checksum;
    Ranges();
  }

  /** Where the parts lie behind a head of known length. */
  lemma PartsBehind(bytes: Bytes, head: nat, payload: Bytes, seal: Bytes, rest: Bytes)
    requires head <= |bytes| && bytes == bytes[..head] + payload + seal + rest
    ensures var tail := bytes[head..];
            && tail[..|payload|] == payload && tail[|payload|..|payload| + |seal|] == seal && tail[|payload| + |seal|..] == rest
  {
    var tail := bytes[head..];
    assert tail == payload + seal + rest;
  }

  lemma SealedReads(bytes: Bytes, r: StoredRecord, payload: Bytes, rest: Bytes)
    requires |bytes| == 16 + |Uleb(|payload|)| + |payload| + 4 + |rest| && Fits(payload)
    requires bytes == Sealed(bytes[..16 + |Uleb(|payload|)|] + payload) + rest
    ensures TakePayload(bytes, r, |payload|, bytes[16 + |Uleb(|payload|)|..])
            == Some(Parsed(r.(record := r.record.(payload := payload)), rest))
  {
    hide Checksum;
    hide Uleb;
    var head := 16 + |Uleb(|payload|)|;
    var content := bytes[..head] + payload;
    var seal := Little(Checksum(content) as int, 4);
    ChecksumFits(content);
    NumberOfLittle(Checksum(content) as int, 4);
    assert |seal| == 4;
    hide Little;
    hide Number;
    assert bytes == bytes[..head] + payload + seal + rest;
    PartsBehind(bytes, head, payload, seal, rest);
    hide Sealed;
  }

  /** Reading a written frame gives the record back, and the bytes that follow it. */
  lemma FrameReads(r: StoredRecord, rest: Bytes)
    requires Storable(r)
    ensures TakeFrame(Frame(r) + rest) == Some(Parsed(r, rest))
  {
    hide Checksum;
    hide Uleb;
    hide TakeUlebFrom;
    hide Little;
    var payload := r.record.payload;
    var bytes := Frame(r) + rest;
    var (seal, length) := (Little(Checksum(Content(r)) as int, 4), Uleb(|payload|));
    assert bytes == Prefix(r) + (length + payload + seal + rest);
    PrefixReads(r, length + payload + seal + rest);
    hide Prefix;
    hide TakePrefix;
    assert bytes[16..] == length + (payload + seal + rest);
    UlebBijection(|payload|, payload + seal + rest, bytes[16..]);
    var head := 16 + |length|;
    assert bytes[..head] + payload == Content(r);
    assert bytes[head..] == payload + seal + rest;
    SealedReads(bytes, r, payload, rest);
    hide TakePayload;
    assert TakePrefix(bytes) == Some(r.(record := r.record.(payload := [])));
    PayloadReplaced(bytes, r, |payload|, payload + seal + rest);
  }

  lemma PayloadReplaced(bytes: Bytes, r: StoredRecord, length: nat, rest: Bytes)
    requires |rest| <= |bytes|
    ensures TakePayload(bytes, r.(record := r.record.(payload := [])), length, rest) == TakePayload(bytes, r, length, rest)
  {
  }

  /** Every frame that is accepted is the frame its record would be written as. */
  lemma FrameIsCanonical(bytes: Bytes)
    requires TakeFrame(bytes).Some?
    ensures var p := TakeFrame(bytes).value; Storable(p.value) && bytes == Frame(p.value) + p.rest
  {
    hide Checksum;
    hide Uleb;
    hide TakeUlebFrom;
    hide Little;
    hide Number;
    PrefixIsCanonical(bytes);
    hide TakePrefix;
    hide Prefix;
    UlebBound(bytes[16..]);
    var r := TakePrefix(bytes).value;
    var (length, after) := (TakeUleb(bytes[16..]).value.value, TakeUleb(bytes[16..]).value.rest);
    SealIsCanonical(bytes, r, length, after);
  }

  lemma PartsAhead(bytes: Bytes, prefix: Bytes, length: Bytes, after: Bytes)
    requires |bytes| >= |prefix| && bytes[..|prefix|] == prefix && bytes[|prefix|..] == length + after
    ensures bytes == prefix + length + after && bytes[..|prefix| + |length|] == prefix + length
    ensures |bytes| == |prefix| + |length| + |after|
  {
    assert bytes == bytes[..|prefix|] + bytes[|prefix|..];
  }

  lemma Regroup(head: Bytes, payload: Bytes, seal: Bytes, rest: Bytes)
    ensures head + (payload + seal + rest) == head + payload + seal + rest
  {
  }

  /** A payload that is taken is followed by its seal, the checksum of everything before it. */
  lemma CheckedSeal(bytes: Bytes, r: StoredRecord, length: nat, after: Bytes)
    requires |after| <= |bytes| && TakePayload(bytes, r, length, after).Some?
    ensures var (p, head) := (TakePayload(bytes, r, length, after).value, |bytes| - |after|);
            && head + length + 4 <= MAX_FRAME_SIZE && length + 4 <= |after|
            && p.value == r.(record := r.record.(payload := after[..length]))
            && after == after[..length] + after[length..length + 4] + p.rest
            && after[length..length + 4] == Little(Checksum(bytes[..head] + after[..length]) as int, 4)
  {
    hide Checksum;
    LittleOfNumber(after[length..length + 4]);
    assert |after[length..length + 4]| == 4;
    hide Little;
    hide Number;
    hide Range;
  }

  lemma SealIsCanonical(bytes: Bytes, r: StoredRecord, length: nat, after: Bytes)
    requires |bytes| >= 16 && bytes[..16] == Prefix(r) && bytes[16..] == Uleb(length) + after
    requires r.record.version == 1 && r.record.flags == 0 && r.sequence < U64
    requires TakePayload(bytes, r, length, after).Some?
    ensures var p := TakePayload(bytes, r, length, after).value; Storable(p.value) && bytes == Frame(p.value) + p.rest
  {
    hide Checksum;
    hide Uleb;
    PartsAhead(bytes, Prefix(r), Uleb(length), after);
    CheckedSeal(bytes, r, length, after);
    var p := TakePayload(bytes, r, length, after).value;
    hide TakePayload;
    SamePrefix(p.value, r);
    hide Prefix;
    var (payload, seal) := (after[..length], after[length..length + 4]);
    assert Content(p.value) == Prefix(r) + Uleb(length) + payload;
    hide Content;
    hide Little;
    Regroup(Prefix(r) + Uleb(length), payload, seal, p.rest);
  }

  lemma SamePrefix(a: StoredRecord, b: StoredRecord)
    requires a == b.(record := b.record.(payload := a.record.payload))
    ensures Prefix(a) == Prefix(b)
  {
  }

  // ------------------------------------------------------------------- commits

  function FirstSequence(staged: seq<StoredRecord>): nat {
    if staged == [] then 0 else staged[0].sequence
  }

  function LastSequence(staged: seq<StoredRecord>): nat {
    if staged == [] then 0 else staged[|staged| - 1].sequence
  }

  function CommitPayload(batch: nat, first: nat, last: nat, count: nat): Bytes {
    Little(batch, 8) + Little(first, 8) + Little(last, 8) + Uleb(count)
  }

  function Commit(batch: nat, sequence: nat, staged: seq<StoredRecord>): StoredRecord {
    StoredRecord(PendingRecord(RECORD_COMMIT, 1, 0, CommitPayload(batch, FirstSequence(staged), LastSequence(staged), |staged|)), sequence)
  }

  /** The commit's own fields, read in order, name this batch. */
  predicate ValidateCommit(payload: Bytes, batch: nat, staged: seq<StoredRecord>) {
    match TakeNumber(payload, 8)
    case None => false
    case Some(b) =>
      match TakeNumber(b.rest, 8)
      case None => false
      case Some(first) =>
        match TakeNumber(first.rest, 8)
        case None => false
        case Some(last) =>
          match TakeUleb(last.rest)
          case None => false
          case Some(count) =>
            && count.rest == []
            && b.value == batch && first.value == FirstSequence(staged) && last.value == LastSequence(staged) && count.value == |staged|
  }

  /** A commit is valid exactly when it is the one that would be written. */
  lemma ValidCommitIsTheCommit(payload: Bytes, batch: nat, staged: seq<StoredRecord>)
    requires batch < U64 && FirstSequence(staged) < U64 && LastSequence(staged) < U64 && |staged| < U64
    ensures ValidateCommit(payload, batch, staged)
            <==> payload == CommitPayload(batch, FirstSequence(staged), LastSequence(staged), |staged|)
  {
    hide Little;
    hide Number;
    hide Uleb;
    hide TakeUlebFrom;
    var (first, last, count) := (FirstSequence(staged), LastSequence(staged), |staged|);
    hide FirstSequence;
    hide LastSequence;
    Ranges();
    if payload == CommitPayload(batch, first, last, count) {
      var tail2 := Little(last, 8) + Uleb(count);
      var tail1 := Little(first, 8) + tail2;
      assert payload == Little(batch, 8) + tail1;
      FixedWidthRoundTrip(batch, 8, tail1);
      FixedWidthRoundTrip(first, 8, tail2);
      FixedWidthRoundTrip(last, 8, Uleb(count));
      assert Uleb(count) == Uleb(count) + [];
      UlebBijection(count, [], Uleb(count));
    }
    if ValidateCommit(payload, batch, staged) {
      FixedWidthCanonical(payload, 8);
      var tail1 := TakeNumber(payload, 8).value.rest;
      FixedWidthCanonical(tail1, 8);
      var tail2 := TakeNumber(tail1, 8).value.rest;
      FixedWidthCanonical(tail2, 8);
      var tail3 := TakeNumber(tail2, 8).value.rest;
      UlebBound(tail3);
      assert tail3 == Uleb(count);
      assert payload == Little(batch, 8) + (Little(first, 8) + (Little(last, 8) + Uleb(count)));
    }
  }

  lemma {:induction false} UlebIsShortEnough(n: nat, index: nat)
    requires index < 10 && n < Room(index)
    ensures |Uleb(n)| <= 10 - index
    decreases n
  {
    if n >= 128 {
      UlebIsShortEnough(n / 128, index + 1);
    }
  }

  lemma CommitFits(batch: nat, sequence: nat, staged: seq<StoredRecord>)
    requires |staged| < U64
    ensures Fits(Commit(batch, sequence, staged).record.payload)
  {
    RoomIs64Bits();
    UlebIsShortEnough(|staged|, 0);
    hide Uleb;
    hide Little;
    var payload := Commit(batch, sequence, staged).record.payload;
    assert |payload| <= 34;
    assert |Uleb(|payload|)| == 1 by {
      UlebOfSmall(|payload|);
    }
  }

  lemma UlebOfSmall(n: nat)
    requires n < 128
    ensures |Uleb(n)| == 1
  {
  }

  // --------------------------------------------------------------------- whole logs

  predicate Appendable(r: PendingRecord) {
    (r.kind == RECORD_ROLE || r.kind == RECORD_CODEC || r.kind == RECORD_POSIT) && r.version == 1 && r.flags == 0
  }

  predicate Writable(records: seq<PendingRecord>) {
    forall r :: r in records ==> Appendable(r) && Fits(r.payload)
  }

  function Numbered(records: seq<PendingRecord>, sequence: nat): (stored: seq<StoredRecord>)
    ensures |stored| == |records|
    ensures forall i :: 0 <= i < |records| ==> stored[i] == StoredRecord(records[i], sequence + i)
  {
    seq(|records|, i requires 0 <= i < |records| => StoredRecord(records[i], sequence + i))
  }

  function Framed(stored: seq<StoredRecord>): Bytes {
    if stored == [] then [] else Frame(stored[0]) + Framed(stored[1..])
  }

  function BatchBytes(batch: nat, sequence: nat, records: seq<PendingRecord>): Bytes {
    var staged := Numbered(records, sequence);
    Framed(staged) + Frame(Commit(batch, sequence + |records|, staged))
  }

  function LogBytes(batches: seq<seq<PendingRecord>>, batch: nat, sequence: nat): Bytes {
    if batches == [] then []
    else BatchBytes(batch, sequence, batches[0]) + LogBytes(batches[1..], batch + 1, sequence + |batches[0]| + 1)
  }

  /** The sequence number after a run of batches: one for each record and each commit. */
  function NextSequence(batches: seq<seq<PendingRecord>>, sequence: nat): (next: nat)
    ensures next >= sequence
  {
    if batches == [] then sequence else NextSequence(batches[1..], sequence + |batches[0]| + 1)
  }

  function NumberedLog(batches: seq<seq<PendingRecord>>, sequence: nat): seq<seq<StoredRecord>> {
    if batches == [] then []
    else [Numbered(batches[0], sequence)] + NumberedLog(batches[1..], sequence + |batches[0]| + 1)
  }

  /** Batches that appends can have written, with every counter still below 2^64. */
  predicate Loggable(batches: seq<seq<PendingRecord>>, batch: nat, sequence: nat) {
    && (forall records :: records in batches ==> Writable(records))
    && NextSequence(batches, sequence) < U64 && batch + |batches| < U64
  }

  /** The batches a scan hands over, given what it has staged; None is corruption. */
  function Scan(bytes: Bytes, sequence: nat, batch: nat, staged: seq<StoredRecord>): Option<seq<seq<StoredRecord>>>
    decreases |bytes|
  {
    if bytes == [] then (if staged == [] then Some([]) else None)
    else match TakeFrame(bytes) {
      case None => None
      case Some(p) =>
        if p.value.sequence != sequence || sequence + 1 >= U64 then None
        else if Data(p.value) then Scan(p.rest, sequence + 1, batch, staged + [p.value])
        else if p.value.record.kind != RECORD_COMMIT then None
        else if !ValidateCommit(p.value.record.payload, batch, staged) || batch + 1 >= U64 then None
        else match Scan(p.rest, sequence + 1, batch + 1, []) {
          case Some(later) => Some([staged] + later)
          case None => None
        }
    }
  }

  predicate Data(r: StoredRecord) {
    r.record.kind == RECORD_ROLE || r.record.kind == RECORD_CODEC || r.record.kind == RECORD_POSIT
  }

  lemma FrameNotEmpty(r: StoredRecord)
    ensures Frame(r) != []
  {
    hide Checksum;
    hide Uleb;
  }

  /** Data frames are staged one after another. */
  lemma {:induction false} ScanStages(records: seq<PendingRecord>, sequence: nat, batch: nat, staged: seq<StoredRecord>, rest: Bytes)
    requires Writable(records) && sequence + |records| < U64
    ensures Scan(Framed(Numbered(records, sequence)) + rest, sequence, batch, staged)
            == Scan(rest, sequence + |records|, batch, staged + Numbered(records, sequence))
    decreases |records|
  {
    hide Frame;
    hide TakeFrame;
    hide ValidateCommit;
    hide Fits;
    if records == [] {
      assert Framed(Numbered(records, sequence)) + rest == rest;
      assert staged + Numbered(records, sequence) == staged;
    } else {
      var all := Numbered(records, sequence);
      var bytes := Framed(all) + rest;
      assert all[1..] == Numbered(records[1..], sequence + 1);
      assert bytes == Frame(all[0]) + (Framed(all[1..]) + rest);
      assert records[0] in records;
      FrameNotEmpty(all[0]);
      FrameReads(all[0], Framed(all[1..]) + rest);
      ScanStages(records[1..], sequence + 1, batch, staged + [all[0]], rest);
      assert staged + [all[0]] + all[1..] == staged + all;
      assert all[0] == StoredRecord(records[0], sequence);
      assert Scan(bytes, sequence, batch, staged) == Scan(Framed(all[1..]) + rest, sequence + 1, batch, staged + [all[0]]);
    }
  }

  lemma CommitIsValid(batch: nat, sequence: nat, staged: seq<StoredRecord>)
    requires sequence < U64 && batch < U64 && |staged| < U64 && FirstSequence(staged) < U64 && LastSequence(staged) < U64
    ensures var commit := Commit(batch, sequence, staged); Storable(commit) && ValidateCommit(commit.record.payload, batch, staged)
  {
    var commit := Commit(batch, sequence, staged);
    CommitFits(batch, sequence, staged);
    ValidCommitIsTheCommit(commit.record.payload, batch, staged);
    hide ValidateCommit;
    hide CommitPayload;
    hide Fits;
  }

  function Handed(staged: seq<StoredRecord>, later: Option<seq<seq<StoredRecord>>>): Option<seq<seq<StoredRecord>>> {
    match later
    case Some(log) => Some([staged] + log)
    case None => None
  }

  lemma ScanCommits(sequence: nat, batch: nat, staged: seq<StoredRecord>, rest: Bytes)
    requires sequence + 1 < U64 && batch + 1 < U64 && |staged| < U64
    requires FirstSequence(staged) < U64 && LastSequence(staged) < U64
    ensures Scan(Frame(Commit(batch, sequence, staged)) + rest, sequence, batch, staged) == Handed(staged, Scan(rest, sequence + 1, batch + 1, []))
  {
    var commit := Commit(batch, sequence, staged);
    CommitIsValid(batch, sequence, staged);
    assert commit.sequence == sequence && !Data(commit) && commit.record.kind == RECORD_COMMIT;
    hide Commit;
    hide ValidateCommit;
    hide Frame;
    hide TakeFrame;
    hide Scan;
    FrameNotEmpty(commit);
    FrameReads(commit, rest);
    hide Storable;
    ScanCommit(Frame(commit) + rest, sequence, batch, staged, commit, rest);
  }

  lemma ScanCommit(bytes: Bytes, sequence: nat, batch: nat, staged: seq<StoredRecord>, r: StoredRecord, rest: Bytes)
    requires bytes != [] && TakeFrame(bytes) == Some(Parsed(r, rest))
    requires r.sequence == sequence && sequence + 1 < U64 && batch + 1 < U64
    requires !Data(r) && r.record.kind == RECORD_COMMIT && ValidateCommit(r.record.payload, batch, staged)
    ensures Scan(bytes, sequence, batch, staged) == Handed(staged, Scan(rest, sequence + 1, batch + 1, []))
  {
    hide ValidateCommit;
    hide TakeFrame;
    hide Data;
  }

  lemma NumberedRange(records: seq<PendingRecord>, sequence: nat)
    requires sequence + |records| < U64
    ensures var staged := Numbered(records, sequence); |staged| < U64 && FirstSequence(staged) < U64 && LastSequence(staged) < U64
  {
  }

  lemma LoggableLater(batches: seq<seq<PendingRecord>>, batch: nat, sequence: nat)
    requires batches != [] && Loggable(batches, batch, sequence)
    ensures var after := sequence + |batches[0]| + 1; Loggable(batches[1..], batch + 1, after) && after < U64
    ensures Writable(batches[0]) && batch + 1 < U64
  {
    hide Writable;
    assert batches[0] in batches;
  }

  /**
   Scanning the frames of successive appends returns those batches, with
   consecutive record numbers.
   */
  lemma {:induction false} ScanReturnsTheBatches(batches: seq<seq<PendingRecord>>, batch: nat, sequence: nat)
    requires Loggable(batches, batch, sequence)
    ensures Scan(LogBytes(batches, batch, sequence), sequence, batch, []) == Some(NumberedLog(batches, sequence))
    decreases |batches|
  {
    hide Scan;
    hide BatchBytes;
    hide Numbered;
    hide Loggable;
    hide Writable;
    if batches == [] {
      ScanEmpty(sequence, batch);
    } else {
      var (records, later) := (batches[0], batches[1..]);
      LoggableLater(batches, batch, sequence);
      ScanReturnsTheBatches(later, batch + 1, sequence + |records| + 1);
      ScanBatch(records, batch, sequence, LogBytes(later, batch + 1, sequence + |records| + 1));
    }
  }

  lemma ScanEmpty(sequence: nat, batch: nat)
    ensures Scan([], sequence, batch, []) == Some([])
  {
  }

  lemma ScanBatch(records: seq<PendingRecord>, batch: nat, sequence: nat, rest: Bytes)
    requires Writable(records) && sequence + |records| + 1 < U64 && batch + 1 < U64
    ensures Scan(BatchBytes(batch, sequence, records) + rest, sequence, batch, [])
            == Handed(Numbered(records, sequence), Scan(rest, sequence + |records| + 1, batch + 1, []))
  {
    hide Scan;
    hide Frame;
    hide Commit;
    hide Framed;
    hide Writable;
    hide FirstSequence;
    hide LastSequence;
    hide Handed;
    var (staged, end) := (Numbered(records, sequence), sequence + |records|);
    var commit := Frame(Commit(batch, end, staged));
    assert BatchBytes(batch, sequence, records) + rest == Framed(staged) + (commit + rest);
    hide BatchBytes;
    ScanStages(records, sequence, batch, [], commit + rest);
    assert [] + staged == staged;
    NumberedRange(records, sequence);
    ScanCommits(end, batch, staged, rest);
  }

  function Plain(stored: seq<StoredRecord>): (records: seq<PendingRecord>)
    ensures |records| == |stored|
    ensures forall i :: 0 <= i < |stored| ==> records[i] == stored[i].record
  {
    seq(|stored|, i requires 0 <= i < |stored| => stored[i].record)
  }

  function PlainLog(log: seq<seq<StoredRecord>>): (batches: seq<seq<PendingRecord>>)
    ensures |batches| == |log|
  {
    if log == [] then [] else [Plain(log[0])] + PlainLog(log[1..])
  }

  lemma {:induction false} FramedAppend(a: seq<StoredRecord>, b: seq<StoredRecord>)
    ensures Framed(a + b) == Framed(a) + Framed(b)
  {
    hide Frame;
    if a == [] {
      assert a + b == b;
    } else {
      FramedAppend(a[1..], b);
      assert (a + b)[0] == a[0] && (a + b)[1..] == a[1..] + b;
      assert Framed(a + b) == Frame(a[0]) + Framed(a[1..] + b);
    }
  }

  lemma FramedOne(r: StoredRecord)
    ensures Framed([r]) == Frame(r)
  {
    hide Frame;
    assert [r][1..] == [];
  }

  /** Records a scan has staged: writable, and numbered from start. */
  predicate StagedFrom(staged: seq<StoredRecord>, start: nat) {
    staged == Numbered(Plain(staged), start) && Writable(Plain(staged))
  }

  lemma StageOne(staged: seq<StoredRecord>, start: nat, r: StoredRecord)
    requires StagedFrom(staged, start) && r.sequence == start + |staged| && Appendable(r.record) && Fits(r.record.payload)
    ensures StagedFrom(staged + [r], start)
  {
    hide Fits;
    assert Plain(staged + [r]) == Plain(staged) + [r.record];
  }

  /** Re-encoding whatever is accepted, staged frames included, reproduces the bytes. */
  predicate Reencodes(bytes: Bytes, sequence: nat, batch: nat, staged: seq<StoredRecord>, log: seq<seq<StoredRecord>>)
    requires |staged| <= sequence
  {
    var (batches, start) := (PlainLog(log), sequence - |staged|);
    && Loggable(batches, batch, start) && log == NumberedLog(batches, start)
    && Framed(staged) + bytes == LogBytes(batches, batch, start)
  }

  lemma {:induction false} AcceptedLogsAreCanonical(bytes: Bytes, sequence: nat, batch: nat, staged: seq<StoredRecord>)
    requires |staged| <= sequence && sequence < U64 && batch < U64 && StagedFrom(staged, sequence - |staged|)
    requires Scan(bytes, sequence, batch, staged).Some?
    ensures Reencodes(bytes, sequence, batch, staged, Scan(bytes, sequence, batch, staged).value)
    decreases |bytes|
  {
    hide Frame;
    hide TakeFrame;
    hide ValidateCommit;
    hide Reencodes;
    hide StagedFrom;
    if bytes == [] {
      NothingReencodes(sequence, batch);
    } else {
      FrameIsCanonical(bytes);
      var p := TakeFrame(bytes).value;
      if Data(p.value) {
        StageOne(staged, sequence - |staged|, p.value);
        AcceptedLogsAreCanonical(p.rest, sequence + 1, batch, staged + [p.value]);
        StagedReencodes(bytes, p.rest, sequence, batch, staged, p.value, Scan(bytes, sequence, batch, staged).value);
      } else {
        NothingStaged(sequence + 1);
        AcceptedLogsAreCanonical(p.rest, sequence + 1, batch + 1, []);
        CommitReencodes(bytes, p.rest, sequence, batch, staged, p.value, Scan(p.rest, sequence + 1, batch + 1, []).value);
      }
    }
  }

  lemma NothingReencodes(sequence: nat, batch: nat)
    requires sequence < U64 && batch < U64
    ensures Reencodes([], sequence, batch, [], [])
  {
  }

  lemma NothingStaged(start: nat)
    ensures StagedFrom([], start)
  {
  }

  lemma StagedReencodes(bytes: Bytes, rest: Bytes, sequence: nat, batch: nat, staged: seq<StoredRecord>, r: StoredRecord, log: seq<seq<StoredRecord>>)
    requires |staged| <= sequence && bytes == Frame(r) + rest && Reencodes(rest, sequence + 1, batch, staged + [r], log)
    ensures Reencodes(bytes, sequence, batch, staged, log)
  {
    hide Frame;
    hide Loggable;
    FramedAppend(staged, [r]);
    FramedOne(r);
    assert Framed(staged) + bytes == Framed(staged + [r]) + rest;
  }

  lemma CommitReencodes(bytes: Bytes, rest: Bytes, sequence: nat, batch: nat, staged: seq<StoredRecord>, r: StoredRecord, later: seq<seq<StoredRecord>>)
    requires |staged| <= sequence && sequence + 1 < U64 && batch + 1 < U64 && StagedFrom(staged, sequence - |staged|)
    requires bytes == Frame(r) + rest && Storable(r) && r.sequence == sequence && r.record.kind == RECORD_COMMIT
    requires ValidateCommit(r.record.payload, batch, staged)
    requires Reencodes(rest, sequence + 1, batch + 1, [], later)
    ensures Reencodes(bytes, sequence, batch, staged, [staged] + later)
  {
    hide ValidateCommit;
    hide Storable;
    hide Frame;
    hide Loggable;
    hide LogBytes;
    hide NumberedLog;
    hide Framed;
    hide Commit;
    hide Writable;
    var (log, start) := ([staged] + later, sequence - |staged|);
    assert log[0] == staged && log[1..] == later;
    CommitIsTheCommit(r, sequence, batch, staged);
    var (records, batches) := (Plain(staged), PlainLog(later));
    assert PlainLog(log) == [records] + batches;
    LoggableOneMore(records, batches, batch, start);
    assert staged == Numbered(records, start);
    hide PlainLog;
    hide Plain;
    hide Numbered;
    ReencodesBatch(bytes, rest, batch, start, records, batches, later, Frame(r));
  }

  lemma ReencodesBatch(bytes: Bytes, rest: Bytes, batch: nat, start: nat, records: seq<PendingRecord>, batches: seq<seq<PendingRecord>>,
      later: seq<seq<StoredRecord>>, commit: Bytes)
    requires bytes == commit + rest && commit == Frame(Commit(batch, start + |records|, Numbered(records, start)))
    requires later == NumberedLog(batches, start + |records| + 1) && Framed([]) + rest == LogBytes(batches, batch + 1, start + |records| + 1)
    ensures [Numbered(records, start)] + later == NumberedLog([records] + batches, start)
    ensures Framed(Numbered(records, start)) + bytes == LogBytes([records] + batches, batch, start)
  {
    hide Frame;
    hide Commit;
    hide Numbered;
    var all := [records] + batches;
    assert all[0] == records && all[1..] == batches;
    assert Framed([]) + rest == rest;
    hide Framed;
    assert BatchBytes(batch, start, records) == Framed(Numbered(records, start)) + commit;
    assert LogBytes(all, batch, start) == BatchBytes(batch, start, records) + rest;
  }

  lemma CommitIsTheCommit(r: StoredRecord, sequence: nat, batch: nat, staged: seq<StoredRecord>)
    requires |staged| <= sequence && sequence + 1 < U64 && batch + 1 < U64 && StagedFrom(staged, sequence - |staged|)
    requires Storable(r) && r.sequence == sequence && r.record.kind == RECORD_COMMIT
    requires ValidateCommit(r.record.payload, batch, staged)
    ensures r == Commit(batch, sequence, staged)
  {
    NumberedRange(Plain(staged), sequence - |staged|);
    ValidCommitIsTheCommit(r.record.payload, batch, staged);
  }

  lemma LoggableOneMore(records: seq<PendingRecord>, later: seq<seq<PendingRecord>>, batch: nat, start: nat)
    requires Writable(records) && Loggable(later, batch + 1, start + |records| + 1)
    ensures Loggable([records] + later, batch, start)
  {
    assert ([records] + later)[1..] == later;
  }

  /**
   Accepted logs and batch sequences are in bijection: a scan of committed bytes
   returns these batches exactly when the bytes are what appending them writes.
   */
  lemma LogBijection(bytes: Bytes, log: seq<seq<StoredRecord>>)
    ensures Scan(bytes, 1, 1, []) == Some(log)
            <==> Loggable(PlainLog(log), 1, 1) && log == NumberedLog(PlainLog(log), 1) && bytes == LogBytes(PlainLog(log), 1, 1)
  {
    if Scan(bytes, 1, 1, []) == Some(log) {
      NothingStaged(1);
      AcceptedLogsAreCanonical(bytes, 1, 1, []);
      assert Framed([]) + bytes == bytes;
    }
    if Loggable(PlainLog(log), 1, 1) && log == NumberedLog(PlainLog(log), 1) && bytes == LogBytes(PlainLog(log), 1, 1) {
      ScanReturnsTheBatches(PlainLog(log), 1, 1);
    }
  }

  lemma {:induction false} PlainOfNumbered(batches: seq<seq<PendingRecord>>, sequence: nat)
    ensures PlainLog(NumberedLog(batches, sequence)) == batches
    decreases |batches|
  {
    if batches != [] {
      PlainOfNumbered(batches[1..], sequence + |batches[0]| + 1);
      var log := NumberedLog(batches, sequence);
      assert log[0] == Numbered(batches[0], sequence) && log[1..] == NumberedLog(batches[1..], sequence + |batches[0]| + 1);
      assert Plain(log[0]) == batches[0];
      assert batches == [batches[0]] + batches[1..];
    }
  }

  // ------------------------------------------------------------- appending one batch

  lemma {:induction false} LogBytesSnoc(batches: seq<seq<PendingRecord>>, records: seq<PendingRecord>, batch: nat, sequence: nat)
    ensures LogBytes(batches + [records], batch, sequence)
            == LogBytes(batches, batch, sequence) + BatchBytes(batch + |batches|, NextSequence(batches, sequence), records)
    ensures NextSequence(batches + [records], sequence) == NextSequence(batches, sequence) + |records| + 1
    decreases |batches|
  {
    hide BatchBytes;
    if batches == [] {
      assert batches + [records] == [records];
      assert [records][1..] == [];
      assert LogBytes([], batch + 1, sequence + |records| + 1) == [];
      assert NextSequence([], sequence + |records| + 1) == sequence + |records| + 1;
    } else {
      LogBytesSnoc(batches[1..], records, batch + 1, sequence + |batches[0]| + 1);
      assert (batches + [records])[1..] == batches[1..] + [records];
    }
  }
}
