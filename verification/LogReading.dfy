/** Reading the committed part of a log file, frame by frame, with sequence checks. */
module LogReading {
  import opened Prelude
  import opened Crc
  import opened Encoding
  import opened Frames
  import opened Manifests

  predicate SameNumber(all: Bytes, view: Bytes)
    requires TakeUleb(view).Some?
  {
    && TakeUleb(all).Some? && TakeUleb(all).value.value == TakeUleb(view).value.value
    && |all| - |TakeUleb(all).value.rest| == |view| - |TakeUleb(view).value.rest|
  }

  /** A shorter view of the same bytes decodes alike whenever the encoding lies inside it. */
  lemma UlebInView(all: Bytes, view: Bytes)
    requires view <= all
    ensures TakeUleb(view).Some? ==> SameNumber(all, view)
    ensures TakeUleb(all).Some? && |all| - |TakeUleb(all).value.rest| <= |view| ==> TakeUleb(view).Some?
  {
    hide Uleb;
    hide TakeUlebFrom;
    var beyond := all[|view|..];
    assert all == view + beyond;
    if TakeUleb(view).Some? {
      var p := TakeUleb(view).value;
      UlebBound(view);
      assert all == Uleb(p.value) + (p.rest + beyond);
      UlebBijection(p.value, p.rest + beyond, all);
    }
    if TakeUleb(all).Some? && |all| - |TakeUleb(all).value.rest| <= |view| {
      var p := TakeUleb(all).value;
      UlebBound(all);
      var n := |Uleb(p.value)|;
      assert view == Uleb(p.value) + view[n..] by {
        assert all[..n] == Uleb(p.value);
        assert view[..n] == all[..n];
      }
      UlebBijection(p.value, view[n..], view);
    }
  }

  /** The bytes between an offset and the committed limit. */
  function View(bytes: Bytes, offset: nat, limit: nat): (view: Bytes)
    requires offset <= limit <= |bytes|
    ensures |view| == limit - offset
  {
    bytes[offset..limit]
  }

  lemma ShortView(bytes: Bytes, offset: nat, limit: nat)
    requires offset <= limit <= |bytes| && limit < offset + 16
    ensures TakeFrame(View(bytes, offset, limit)).None?
  {
  }

  /** Where the payload starts, once a length has been read from the file. */
  function PayloadStart(bytes: Bytes, offset: nat): (start: nat)
    requires offset + 16 <= |bytes| && TakeUleb(bytes[offset + 16..]).Some?
    ensures offset + 16 <= start <= |bytes|
  {
    UlebBound(bytes[offset + 16..]);
    |bytes| - |TakeUleb(bytes[offset + 16..]).value.rest|
  }

  lemma LengthInView(bytes: Bytes, offset: nat, limit: nat)
    requires offset + 16 <= limit <= |bytes|
    ensures var (all, view) := (bytes[offset + 16..], bytes[offset + 16..limit]);
            && (TakeUleb(all).None? ==> TakeUleb(view).None?)
            && (TakeUleb(all).Some? && PayloadStart(bytes, offset) > limit ==> TakeUleb(view).None?)
            && (TakeUleb(all).Some? && PayloadStart(bytes, offset) <= limit ==>
                  TakeUleb(view) == Some(Parsed(TakeUleb(all).value.value, bytes[PayloadStart(bytes, offset)..limit])))
  {
    hide TakeUlebFrom;
    hide Uleb;
    var (all, view) := (bytes[offset + 16..], bytes[offset + 16..limit]);
    assert view <= all;
    UlebInView(all, view);
    if TakeUleb(all).Some? {
      UlebBound(all);
      assert TakeUleb(all).value.rest == bytes[PayloadStart(bytes, offset)..];
      if TakeUleb(view).Some? {
        UlebBound(view);
        assert TakeUleb(view).value.rest == bytes[PayloadStart(bytes, offset)..limit];
      }
    }
  }

  /** The frame in view, given the length read from the file. */
  function FrameBehind(bytes: Bytes, offset: nat, limit: nat, length: Option<Parsed<nat>>): Option<Parsed<StoredRecord>>
    requires offset + 16 <= limit <= |bytes| && length == TakeUleb(bytes[offset + 16..])
  {
    var r :- TakePrefix(View(bytes, offset, limit));
    var p :- length;
    var start := PayloadStart(bytes, offset);
    if start + p.value + 4 > limit then None
    else TakePayload(View(bytes, offset, limit), r, p.value, bytes[start..limit])
  }

  /** What a length read from the file says about the frame in view. */
  lemma FrameInView(bytes: Bytes, offset: nat, limit: nat)
    requires offset + 16 <= limit <= |bytes|
    ensures TakePrefix(bytes[offset..offset + 16]) == TakePrefix(View(bytes, offset, limit))
    ensures TakeFrame(View(bytes, offset, limit)) == FrameBehind(bytes, offset, limit, TakeUleb(bytes[offset + 16..]))
  {
    var view := View(bytes, offset, limit);
    PrefixInView(view, bytes[offset..offset + 16]);
    hide TakePrefix;
    hide TakeUleb;
    assert view[16..] == bytes[offset + 16..limit];
    LengthInView(bytes, offset, limit);
    if TakeUleb(bytes[offset + 16..]).Some? {
      PayloadTooLong(view, TakeUleb(bytes[offset + 16..]).value.value, PayloadStart(bytes, offset), limit - offset, offset, bytes, limit);
    }
  }

  lemma PayloadTooLong(view: Bytes, length: nat, start: nat, size: nat, offset: nat, bytes: Bytes, limit: nat)
    requires offset + 16 <= limit <= |bytes| && view == View(bytes, offset, limit) && size == |view|
    ensures offset + 16 <= start <= limit && start + length + 4 > limit ==>
              forall r :: TakePayload(view, r, length, bytes[start..limit]).None?
  {
  }

  lemma PrefixInView(view: Bytes, prefix: Bytes)
    requires |view| >= 16 && prefix == view[..16]
    ensures TakePrefix(prefix) == TakePrefix(view)
  {
    assert prefix[..4] == view[..4] && prefix[6..8] == view[6..8] && prefix[8..16] == view[8..16];
  }

  lemma FrameSlices(bytes: Bytes, offset: nat, head: nat, limit: nat, length: nat)
    requires offset + 16 <= head && head + length + 4 <= limit <= |bytes|
    ensures bytes[head..limit][..length] == bytes[head..head + length]
    ensures bytes[head..limit][length..length + 4] == bytes[head + length..head + length + 4]
    ensures bytes[offset..offset + 16] + bytes[offset + 16..head] == View(bytes, offset, limit)[..head - offset]
    ensures bytes[head..limit][length + 4..] == View(bytes, head + length + 4, limit)
  {
    var view := View(bytes, offset, limit);
    assert bytes[offset..offset + 16] + bytes[offset + 16..head] == bytes[offset..head] == view[..head - offset];
    var tail := bytes[head..limit];
    var (a, b) := (tail[length..length + 4], bytes[head + length..head + length + 4]);
    assert |a| == |b|;
    forall i | 0 <= i < |a| ensures a[i] == b[i] {
      assert a[i] == tail[length + i] == bytes[head + length + i];
    }
  }

  /** What remains to be checked once a frame is known to fit. */
  lemma PayloadChecks(bytes: Bytes, offset: nat, limit: nat, r: StoredRecord, length: nat, head: nat)
    requires offset + 16 <= head && head + length + 4 <= limit <= |bytes| && head - offset + length + 4 <= MAX_FRAME_SIZE
    ensures var payload := bytes[head..head + length];
            TakePayload(View(bytes, offset, limit), r, length, bytes[head..limit]) ==
            if Checksum(bytes[offset..offset + 16] + bytes[offset + 16..head] + payload) as int != Number(bytes[head + length..head + length + 4]) then None
            else Some(Parsed(r.(record := r.record.(payload := payload)), View(bytes, head + length + 4, limit)))
  {
    hide Checksum;
    hide Number;
    FrameSlices(bytes, offset, head, limit, length);
  }

  lemma TooLarge(view: Bytes, r: StoredRecord, length: nat, rest: Bytes)
    requires |rest| <= |view| && |view| - |rest| + length + 4 > MAX_FRAME_SIZE
    ensures TakePayload(view, r, length, rest).None?
  {
  }

  /**
   Reads the frame at an offset.  The file may run on past the committed limit; only a
   frame that ends within the limit is accepted.
   */
  method ReadFrame(source: Source, offset: nat, limit: nat) returns (read: Result<(StoredRecord, nat), StoreError>)
    requires source.position == offset <= limit <= |source.bytes|
    modifies source
    ensures source.position <= |source.bytes|
    ensures match TakeFrame(View(source.bytes, offset, limit)) {
              case None => read == Err(DataCorruption)
              case Some(p) =>
                && read.Ok? && read.value.0 == p.value && read.value.1 == source.position
                && offset < source.position <= limit && View(source.bytes, source.position, limit) == p.rest
            }
  {
    hide TakeUlebFrom;
    hide Uleb;
    hide Checksum;
    hide Number;
    ghost var bytes := source.bytes;
    var prefix := source.ReadExact(16);
    if limit < offset + 16 {
      ShortView(bytes, offset, limit);
    } else {
      FrameInView(bytes, offset, limit);
    }
    if prefix.None? {
      return Err(DataCorruption);
    }
    var r := TakePrefix(prefix.value);
    if r.None? {
      return Err(DataCorruption);
    }
    hide TakePrefix;
    hide TakeUleb;
    hide TakeFrame;
    var length, framed := ReadUleb128(source);
    if length.None? {
      return Err(DataCorruption);
    }
    var complete := 16 + |framed| + length.value + 4;
    if complete > MAX_FRAME_SIZE || offset + complete > limit {
      if offset + complete <= limit {
        TooLarge(View(bytes, offset, limit), r.value, length.value, bytes[offset + 16 + |framed|..limit]);
      }
      return Err(DataCorruption);
    }
    ghost var head := offset + 16 + |framed|;
    assert PayloadStart(bytes, offset) == head;
    var payload := source.ReadExact(length.value);
    if payload.None? {
      return Err(DataCorruption);
    }
    var checksum := source.ReadExact(4);
    if checksum.None? {
      return Err(DataCorruption);
    }
    FrameSlices(bytes, offset, head, limit, length.value);
    hide TakePayload;
    hide View;
    var computed := Crc32c(prefix.value + framed + payload.value);
    PayloadChecks(bytes, offset, limit, r.value, length.value, head);
    if computed as int != Number(checksum.value) {
      return Err(DataCorruption);
    }
    return Ok((r.value.(record := r.value.record.(payload := payload.value)), offset + complete));
  }

  // ------------------------------------------------------------------ the whole scan

  datatype Metadata = Metadata(nextSequence: nat, nextBatch: nat, batchCount: nat)

  function MetadataOf(log: seq<seq<StoredRecord>>): Metadata {
    Metadata(NextSequence(PlainLog(log), 1), 1 + |log|, |log|)
  }

  function After(done: seq<seq<StoredRecord>>, rest: Option<seq<seq<StoredRecord>>>): Option<seq<seq<StoredRecord>>> {
    match rest
    case Some(later) => Some(done + later)
    case None => None
  }

  lemma AfterHanded(done: seq<seq<StoredRecord>>, staged: seq<StoredRecord>, rest: Option<seq<seq<StoredRecord>>>)
    ensures After(done, Handed(staged, rest)) == After(done + [staged], rest)
  {
    if rest.Some? {
      assert done + ([staged] + rest.value) == done + [staged] + rest.value;
    }
  }

  lemma {:induction false} PlainLogSnoc(log: seq<seq<StoredRecord>>, staged: seq<StoredRecord>)
    ensures PlainLog(log + [staged]) == PlainLog(log) + [Plain(staged)]
  {
    if log == [] {
      assert log + [staged] == [staged];
      assert [staged][1..] == [];
    } else {
      PlainLogSnoc(log[1..], staged);
      assert (log + [staged])[1..] == log[1..] + [staged];
    }
  }

  lemma NextSequenceSnoc(batches: seq<seq<PendingRecord>>, records: seq<PendingRecord>, sequence: nat)
    ensures NextSequence(batches + [records], sequence) == NextSequence(batches, sequence) + |records| + 1
  {
    LogBytesSnoc(batches, records, 1, sequence);
  }

  /** One step of a scan that has read a frame. */
  lemma ScanStep(bytes: Bytes, sequence: nat, batch: nat, staged: seq<StoredRecord>, r: StoredRecord, rest: Bytes)
    requires bytes != [] && TakeFrame(bytes) == Some(Parsed(r, rest))
    ensures var scanned := Scan(bytes, sequence, batch, staged);
            if r.sequence != sequence || sequence + 1 >= U64 then scanned.None?
            else if Data(r) then scanned == Scan(rest, sequence + 1, batch, staged + [r])
            else if r.record.kind != RECORD_COMMIT || !ValidateCommit(r.record.payload, batch, staged) || batch + 1 >= U64 then scanned.None?
            else scanned == Handed(staged, Scan(rest, sequence + 1, batch + 1, []))
  {
    hide TakeFrame;
    hide ValidateCommit;
  }

  /** Hands over the committed batches; any gap, unknown record or unfinished batch is corruption. */
  method ScanCommitted(log: Bytes, committed: nat) returns (scanned: Result<(Metadata, seq<seq<StoredRecord>>), StoreError>)
    requires LOG_HEADER_LEN <= committed <= |log|
    ensures match Scan(View(log, LOG_HEADER_LEN, committed), 1, 1, []) {
              case None => scanned.Err?
              case Some(batches) => scanned == Ok((MetadataOf(batches), batches))
            }
  {
    hide TakeFrame;
    hide ValidateCommit;
    hide Scan;
    hide View;
    var offset, sequence, batch := LOG_HEADER_LEN, 1, 1;
    var staged: seq<StoredRecord> := [];
    var done: seq<seq<StoredRecord>> := [];
    var source := new Source(log);
    source.position := offset;
    ghost var whole := Scan(View(log, LOG_HEADER_LEN, committed), 1, 1, []);
    StartsWithNothing(whole);
    while offset < committed
      invariant source.bytes == log && source.position == offset <= committed
      invariant whole == After(done, Scan(View(log, offset, committed), sequence, batch, staged))
      invariant batch == 1 + |done| && sequence == NextSequence(PlainLog(done), 1) + |staged|
      decreases committed - offset
    {
      ViewNotEmpty(log, offset, committed);
      var read := ReadFrame(source, offset, committed);
      if read.Err? {
        ScanFails(View(log, offset, committed), sequence, batch, staged);
        return Err(DataCorruption);
      }
      var (record, next) := read.value;
      ScanStep(View(log, offset, committed), sequence, batch, staged, record, View(log, next, committed));
      if record.sequence != sequence {
        return Err(DataCorruption);
      }
      if sequence + 1 >= U64 {
        return Err(Invariant);
      }
      sequence := sequence + 1;
      if Data(record) {
        staged := staged + [record];
      } else if record.record.kind == RECORD_COMMIT {
        if !ValidateCommit(record.record.payload, batch, staged) {
          return Err(DataCorruption);
        }
        if batch + 1 >= U64 {
          return Err(Invariant);
        }
        AfterHanded(done, staged, Scan(View(log, next, committed), sequence, batch + 1, []));
        PlainLogSnoc(done, staged);
        NextSequenceSnoc(PlainLog(done), Plain(staged), 1);
        done := done + [staged];
        staged := [];
        batch := batch + 1;
      } else {
        return Err(DataCorruption);
      }
      offset := next;
    }
    ScanEnds(log, committed, sequence, batch, staged);
    if staged != [] {
      return Err(DataCorruption);
    }
    assert done + [] == done;
    return Ok((Metadata(sequence, batch, |done|), done));
  }

  lemma StartsWithNothing(rest: Option<seq<seq<StoredRecord>>>)
    ensures rest == After([], rest)
  {
    if rest.Some? {
      assert [] + rest.value == rest.value;
    }
  }

  lemma ViewNotEmpty(bytes: Bytes, offset: nat, limit: nat)
    requires offset < limit <= |bytes|
    ensures View(bytes, offset, limit) != []
  {
  }

  lemma ScanFails(bytes: Bytes, sequence: nat, batch: nat, staged: seq<StoredRecord>)
    requires bytes != [] && TakeFrame(bytes).None?
    ensures Scan(bytes, sequence, batch, staged).None?
  {
    hide TakeFrame;
  }

  lemma ScanEnds(log: Bytes, committed: nat, sequence: nat, batch: nat, staged: seq<StoredRecord>)
    requires committed <= |log|
    ensures Scan(View(log, committed, committed), sequence, batch, staged) == (if staged == [] then Some([]) else None)
  {
  }
}
