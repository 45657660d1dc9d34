/**
 The fail-closed writer and its store directory.  Files are the bytes that survive a
 crash; a failing append is described by how far it got before it stopped.
 */
module Storage {
  import opened Prelude
  import opened Encoding
  import opened Frames
  import opened Manifests
  import opened LogReading

  datatype Disk = Disk(log: Bytes, manifest: Bytes)

  datatype Writer = Writer(manifest: Manifest, metadata: Metadata, poisoned: bool)

  /**
   Where an append fails: while the log is written, leaving any bytes past the
   committed length; before the new manifest is renamed into place; or after.
   */
  datatype Fault = NoFault | TornLog(tail: Bytes) | BeforeRename | AfterRename

  /** Overwriting part of a file from an offset. */
  function WriteAt(file: Bytes, offset: nat, bytes: Bytes): Bytes
    requires offset <= |file|
  {
    file[..offset] + bytes + (if offset + |bytes| < |file| then file[offset + |bytes|..] else [])
  }

  predicate AllFit(records: seq<PendingRecord>) {
    forall r :: r in records ==> Fits(r.payload)
  }

  predicate AllAppendable(records: seq<PendingRecord>) {
    forall r :: r in records ==> Appendable(r)
  }

  /** Every counter of a writer is within the length its manifest commits, a 64-bit number. */
  predicate Counted(w: Writer) {
    && w.metadata.nextSequence <= w.manifest.committedLength && w.metadata.nextBatch <= w.manifest.committedLength
    && w.metadata.batchCount <= w.manifest.committedLength < U64
  }

  /** Framing meets a record that does not fit before it runs out of numbers. */
  predicate MeetsTooLarge(records: seq<PendingRecord>, sequence: nat) {
    exists i :: 0 <= i < |records| && !Fits(records[i].payload) && sequence + i < U64
  }

  function Committed(w: Writer, framed: Bytes): Manifest {
    w.manifest.(committedLength := w.manifest.committedLength + |framed|)
  }

  function Advanced(w: Writer, framed: Bytes, count: nat): Writer {
    Writer(Committed(w, framed), Metadata(w.metadata.nextSequence + count + 1, w.metadata.nextBatch + 1, w.metadata.batchCount + 1), false)
  }

  datatype Outcome = Outcome(disk: Disk, writer: Writer, result: Result<seq<StoredRecord>, StoreError>)

  /** One append, from the files and the writer before it to those after it. */
  function Append(d: Disk, w: Writer, records: seq<PendingRecord>, fault: Fault): Outcome
    requires w.manifest.committedLength <= |d.log|
  {
    if w.poisoned then Outcome(d, w, Err(Persistence))
    else if !AllAppendable(records) then Outcome(d, w, Err(Invariant))
    else if !AllFit(records) || w.metadata.nextSequence + |records| >= U64 then
      Outcome(d, w, Err(if MeetsTooLarge(records, w.metadata.nextSequence) then Persistence else Invariant))
    else
      var stored := Numbered(records, w.metadata.nextSequence);
      var framed := BatchBytes(w.metadata.nextBatch, w.metadata.nextSequence, records);
      var log := WriteAt(d.log, w.manifest.committedLength, framed);
      var manifest := EncodeManifest(Committed(w, framed));
      if fault.TornLog? then
        Outcome(d.(log := d.log[..w.manifest.committedLength] + fault.tail), w.(poisoned := true), Err(Persistence))
      else if w.manifest.committedLength + |framed| >= U64 then Outcome(d.(log := log), w, Err(Invariant))
      else if fault.BeforeRename? then Outcome(d.(log := log), w.(poisoned := true), Err(Persistence))
      else if fault.AfterRename? then Outcome(Disk(log, manifest), w.(poisoned := true), Err(Persistence))
      else Outcome(Disk(log, manifest), Advanced(w, framed, |records|), Ok(stored))
  }

  datatype Opened = Opened(disk: Disk, store: Result<(Writer, seq<seq<StoredRecord>>), StoreError>)

  /** Opening a directory: cut the tail the manifest does not name, then scan the rest. */
  function Open(d: Disk): Opened {
    match ReadManifest(d.manifest)
    case None => Opened(d, Err(DataCorruption))
    case Some(m) =>
      if !VerifyLogHeader(d.log, m.uuid) || m.committedLength < LOG_HEADER_LEN || m.committedLength > |d.log| then Opened(d, Err(DataCorruption))
      else
        var log := d.log[..m.committedLength];
        match Scan(log[LOG_HEADER_LEN..], 1, 1, [])
        case None => Opened(d.(log := log), Err(DataCorruption))
        case Some(batches) => Opened(d.(log := log), Ok((Writer(m, MetadataOf(batches), false), batches)))
  }

  // -------------------------------------------------------------------- the writer

  /** The store directory: the two files every owner of the store shares. */
  class Directory {
    var log: Bytes
    var manifest: Bytes

    constructor (log: Bytes, manifest: Bytes)
      ensures Files() == Disk(log, manifest)
    {
      this.log := log;
      this.manifest := manifest;
    }

    function Files(): Disk
      reads this
    {
      Disk(log, manifest)
    }
  }

  lemma FramedSnoc(stored: seq<StoredRecord>, r: StoredRecord)
    ensures Framed(stored + [r]) == Framed(stored) + Frame(r)
  {
    FramedAppend(stored, [r]);
    FramedOne(r);
  }

  lemma NumberedSnoc(records: seq<PendingRecord>, r: PendingRecord, sequence: nat)
    ensures Numbered(records + [r], sequence) == Numbered(records, sequence) + [StoredRecord(r, sequence + |records|)]
  {
  }

  lemma {:induction false} FramesCount(stored: seq<StoredRecord>)
    ensures |Framed(stored)| >= |stored|
  {
    hide Frame;
    if stored != [] {
      FrameIsNotEmpty(stored[0]);
      FramesCount(stored[1..]);
    }
  }

  lemma FrameIsNotEmpty(r: StoredRecord)
    ensures |Frame(r)| > 0
  {
  }

  /** A batch takes at least a byte for each number it uses. */
  lemma BatchCounts(batch: nat, sequence: nat, records: seq<PendingRecord>)
    ensures |BatchBytes(batch, sequence, records)| >= |records| + 1
  {
    var staged := Numbered(records, sequence);
    FramesCount(staged);
    FrameIsNotEmpty(Commit(batch, sequence + |records|, staged));
    hide Frame;
    hide Framed;
    hide Commit;
  }

  lemma {:induction false} LogCounts(batches: seq<seq<PendingRecord>>, batch: nat, sequence: nat)
    ensures NextSequence(batches, sequence) <= sequence + |LogBytes(batches, batch, sequence)| && |batches| <= |LogBytes(batches, batch, sequence)|
    decreases |batches|
  {
    hide BatchBytes;
    if batches != [] {
      BatchCounts(batch, sequence, batches[0]);
      LogCounts(batches[1..], batch + 1, sequence + |batches[0]| + 1);
    }
  }

  /** A writer that a scan has just made is counted. */
  lemma ScannedIsCounted(m: Manifest, bytes: Bytes, log: seq<seq<StoredRecord>>)
    requires Scan(bytes, 1, 1, []) == Some(log) && |bytes| + LOG_HEADER_LEN == m.committedLength < U64
    ensures Counted(Writer(m, MetadataOf(log), false))
  {
    hide Scan;
    hide Loggable;
    LogBijection(bytes, log);
    LogCounts(PlainLog(log), 1, 1);
    hide LogBytes;
    hide NextSequence;
    hide PlainLog;
    PlainLength(log);
  }

  lemma {:induction false} PlainLength(log: seq<seq<StoredRecord>>)
    ensures |PlainLog(log)| == |log|
  {
    if log != [] {
      PlainLength(log[1..]);
    }
  }

  /** Frames the records one after another; one that is too large, or running out of numbers, stops it. */
  method FrameRecords(records: seq<PendingRecord>, sequence: nat) returns (framed: Result<(Bytes, seq<StoredRecord>), StoreError>)
    requires sequence < U64
    ensures framed.Ok? <==> AllFit(records) && sequence + |records| < U64
    ensures framed.Err? ==> framed.error == if MeetsTooLarge(records, sequence) then Persistence else Invariant
    ensures framed.Ok? ==> framed.value.1 == Numbered(records, sequence) && framed.value.0 == Framed(Numbered(records, sequence))
  {
    hide Frame;
    hide Fits;
    var bytes: Bytes := [];
    var stored: seq<StoredRecord> := [];
    for i := 0 to |records|
      invariant stored == Numbered(records[..i], sequence) && bytes == Framed(stored)
      invariant (forall j :: 0 <= j < i ==> Fits(records[j].payload)) && sequence + i < U64
    {
      var r := StoredRecord(records[i], sequence + i);
      assert records[..i + 1] == records[..i] + [records[i]];
      var frame := EncodeFrame(r);
      if frame.Err? {
        assert records[i] in records;
        return Err(frame.error);
      }
      if r.sequence + 1 >= U64 {
        return Err(Invariant);
      }
      NumberedSnoc(records[..i], records[i], sequence);
      FramedSnoc(stored, r);
      bytes := bytes + frame.value;
      stored := stored + [r];
    }
    assert records[..|records|] == records;
    return Ok((bytes, stored));
  }

  /** Only data records of version 1 without flags may be appended. */
  method ValidatePending(records: seq<PendingRecord>) returns (valid: bool)
    ensures valid == AllAppendable(records)
  {
    for i := 0 to |records|
      invariant forall r :: r in records[..i] ==> Appendable(r)
    {
      assert records[..i + 1] == records[..i] + [records[i]];
      if !Appendable(records[i]) {
        assert records[i] in records;
        return false;
      }
    }
    assert records[..|records|] == records;
    return true;
  }

  class LogStore {
    const directory: Directory
    var manifest: Manifest
    var nextSequence: nat
    var nextBatch: nat
    var batchCount: nat
    var poisoned: bool

    constructor (directory: Directory, writer: Writer)
      ensures this.directory == directory && State() == writer
    {
      this.directory := directory;
      manifest := writer.manifest;
      nextSequence := writer.metadata.nextSequence;
      nextBatch := writer.metadata.nextBatch;
      batchCount := writer.metadata.batchCount;
      poisoned := writer.poisoned;
    }

    function State(): Writer
      reads this
    {
      Writer(manifest, Metadata(nextSequence, nextBatch, batchCount), poisoned)
    }

    /** Opens the directory, cutting an uncommitted tail and reading the committed batches. */
    static method OpenInternal(directory: Directory) returns (owned: Result<(LogStore, seq<seq<StoredRecord>>), StoreError>)
      modifies directory
      ensures directory.Files() == Open(old(directory.Files())).disk
      ensures match Open(old(directory.Files())).store {
                case Err(_) => owned.Err?
                case Ok((writer, batches)) =>
                  owned.Ok? && fresh(owned.value.0) && owned.value.0.directory == directory
                  && owned.value.0.State() == writer && owned.value.1 == batches && Counted(writer)
              }
    {
      hide ReadManifest;
      hide VerifyLogHeader;
      hide Scan;
      var read := ReadManifest(directory.manifest);
      if read.None? {
        return Err(DataCorruption);
      }
      var m := read.value;
      if !VerifyLogHeader(directory.log, m.uuid) {
        return Err(DataCorruption);
      }
      if m.committedLength < LOG_HEADER_LEN || m.committedLength > |directory.log| {
        return Err(DataCorruption);
      }
      ghost var whole := directory.log;
      if |directory.log| > m.committedLength {
        directory.log := directory.log[..m.committedLength];
      }
      assert directory.log == whole[..m.committedLength];
      assert View(directory.log, LOG_HEADER_LEN, m.committedLength) == directory.log[LOG_HEADER_LEN..];
      var scanned := ScanCommitted(directory.log, m.committedLength);
      if scanned.Err? {
        return Err(scanned.error);
      }
      ReadLengthFits(directory.manifest);
      ScannedIsCounted(m, directory.log[LOG_HEADER_LEN..], scanned.value.1);
      var store := new LogStore(directory, Writer(m, scanned.value.0, false));
      return Ok((store, scanned.value.1));
    }

    /**
     Appends one batch: frames, a commit frame, then the manifest.  From the first byte
     written until the manifest is durable any failure closes the writer for good; only a
     log length past 64 bits is refused after writing without closing it.  The counters
     advanced at the end cannot run out, since every number took a byte of the log.
     */
    method AppendBatch(records: seq<PendingRecord>, fault: Fault) returns (stored: Result<seq<StoredRecord>, StoreError>)
      requires manifest.committedLength <= |directory.log| && Counted(State())
      modifies this, directory
      ensures Counted(State())
      ensures Outcome(directory.Files(), State(), stored) == Append(old(directory.Files()), old(State()), records, fault)
    {
      hide Frame;
      hide Framed;
      hide Commit;
      hide EncodeManifest;
      if poisoned {
        return Err(Persistence);
      }
      var valid := ValidatePending(records);
      if !valid {
        return Err(Invariant);
      }
      hide AllAppendable;
      var framed := FrameRecords(records, nextSequence);
      if framed.Err? {
        return Err(framed.error);
      }
      hide AllFit;
      hide Numbered;
      var (bytes, staged) := framed.value;
      BatchCounts(nextBatch, nextSequence, records);
      bytes := bytes + Frame(Commit(nextBatch, nextSequence + |records|, staged));
      assert bytes == BatchBytes(nextBatch, nextSequence, records);
      hide BatchBytes;
      var oldLength := manifest.committedLength;
      if fault.TornLog? {
        directory.log := directory.log[..oldLength] + fault.tail;
        poisoned := true;
        return Err(Persistence);
      }
      directory.log := WriteAt(directory.log, oldLength, bytes);
      if oldLength + |bytes| >= U64 {
        return Err(Invariant);
      }
      var newManifest := manifest.(committedLength := oldLength + |bytes|);
      if fault.BeforeRename? {
        poisoned := true;
        return Err(Persistence);
      }
      directory.manifest := EncodeManifest(newManifest);
      if fault.AfterRename? {
        poisoned := true;
        return Err(Persistence);
      }
      manifest := newManifest;
      assert nextSequence + |records| + 1 < U64 && nextBatch + 1 < U64 && batchCount + 1 < U64;
      nextSequence := nextSequence + |records| + 1;
      nextBatch := nextBatch + 1;
      batchCount := batchCount + 1;
      return Ok(staged);
    }
  }
}
