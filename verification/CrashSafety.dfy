/**
 Whole runs of a store: appends that succeed, are refused or fail part-way, crashes,
 and reopens.  The history is what a caller was told, and for a failed append whether
 the manifest had already been renamed, which the caller cannot know.
 */
module CrashSafety {
  import opened Prelude
  import opened Encoding
  import opened Frames
  import opened Manifests
  import opened LogReading
  import opened Storage

  datatype Verdict = Acknowledged | Refused | Uncertain(durable: bool)

  datatype Entry = Attempt(records: seq<PendingRecord>, verdict: Verdict) | Restart

  datatype System = System(disk: Disk, writer: Option<Writer>, history: seq<Entry>)

  datatype Event =
    | AppendBatch(records: seq<PendingRecord>, fault: Fault)
    | Crash
    | Reopen(interrupted: bool)

  function VerdictOf(before: Writer, outcome: Outcome, fault: Fault): Verdict {
    if outcome.result.Ok? then Acknowledged
    else if outcome.writer.poisoned && !before.poisoned then Uncertain(fault.AfterRename?)
    else Refused
  }

  /** One event.  Only one owner holds the directory, so a reopen follows a crash. */
  ghost predicate Next(s: System, e: Event, t: System) {
    match e
    case AppendBatch(records, fault) =>
      && s.writer.Some? && s.writer.value.manifest.committedLength <= |s.disk.log|
      && var o := Append(s.disk, s.writer.value, records, fault);
         t == System(o.disk, Some(o.writer), s.history + [Attempt(records, VerdictOf(s.writer.value, o, fault))])
    case Crash =>
      t == s.(writer := None)
    case Reopen(interrupted) =>
      && s.writer.None?
      && var o := Open(s.disk);
         t == if interrupted || o.store.Err? then s.(disk := o.disk)
              else System(o.disk, Some(o.store.value.0), s.history + [Restart])
  }

  /** A directory as first created, before its first open. */
  function Created(uuid: Uuid): System {
    System(Disk(LogHeader(uuid), EncodeManifest(Manifest(uuid, LOG_HEADER_LEN))), None, [])
  }

  ghost predicate IsRun(states: seq<System>, events: seq<Event>, uuid: Uuid) {
    && |states| == |events| + 1 && states[0] == Created(uuid)
    && forall i :: 0 <= i < |events| ==> Next(states[i], events[i], states[i + 1])
  }

  // ----------------------------------------------------------------- what is promised

  function KeptOf(e: Entry): seq<seq<PendingRecord>> {
    match e
    case Attempt(records, Acknowledged) => [records]
    case Attempt(records, Uncertain(true)) => [records]
    case _ => []
  }

  /** Acknowledged batches in order, with the failed ones whose manifest was in place. */
  function Kept(history: seq<Entry>): seq<seq<PendingRecord>> {
    if history == [] then [] else Kept(history[..|history| - 1]) + KeptOf(history[|history| - 1])
  }

  function AcknowledgedOf(e: Entry): seq<seq<PendingRecord>> {
    if e.Attempt? && e.verdict.Acknowledged? then [e.records] else []
  }

  function AllAcknowledged(history: seq<Entry>): seq<seq<PendingRecord>> {
    if history == [] then [] else AllAcknowledged(history[..|history| - 1]) + AcknowledgedOf(history[|history| - 1])
  }

  predicate IsUncertain(e: Entry) {
    e.Attempt? && e.verdict.Uncertain?
  }

  /** Some append has failed part-way since the last reopen. */
  ghost predicate Failed(history: seq<Entry>) {
    exists i :: 0 <= i < |history| && IsUncertain(history[i]) && NoRestart(history, i, |history|)
  }

  predicate NoRestart(history: seq<Entry>, from: nat, to: nat)
    requires from <= to <= |history|
  {
    forall k :: from <= k < to ==> !history[k].Restart?
  }

  /** After an uncertain append nothing is appended until a reopen. */
  ghost predicate FailClosed(history: seq<Entry>) {
    forall i, j :: 0 <= i < j < |history| && IsUncertain(history[i]) && NoRestart(history, i, j + 1) ==> history[j].verdict.Refused?
  }

  // ------------------------------------------------------------------ the invariant

  function CommittedBytes(uuid: Uuid, batches: seq<seq<PendingRecord>>): Bytes {
    LogHeader(uuid) + LogBytes(batches, 1, 1)
  }

  /** The files hold exactly these batches, then bytes nobody will read. */
  ghost predicate Holds(d: Disk, uuid: Uuid, batches: seq<seq<PendingRecord>>) {
    var committed := CommittedBytes(uuid, batches);
    && Loggable(batches, 1, 1) && |committed| < U64 && committed <= d.log
    && d.manifest == EncodeManifest(Manifest(uuid, |committed|))
  }

  function WriterOf(uuid: Uuid, batches: seq<seq<PendingRecord>>): Writer {
    Writer(Manifest(uuid, |CommittedBytes(uuid, batches)|), Metadata(NextSequence(batches, 1), 1 + |batches|, |batches|), false)
  }

  ghost predicate Safe(s: System, uuid: Uuid) {
    var batches := Kept(s.history);
    && Holds(s.disk, uuid, batches) && FailClosed(s.history)
    && (s.writer.Some? ==>
         && s.writer.value.manifest.committedLength <= |s.disk.log|
         && (s.writer.value.poisoned <==> Failed(s.history))
         && (!s.writer.value.poisoned ==> s.writer.value == WriterOf(uuid, batches)))
  }

  lemma HistoryStep(history: seq<Entry>, e: Entry)
    requires FailClosed(history) && (e.Attempt? && Failed(history) ==> e.verdict.Refused?)
    ensures FailClosed(history + [e]) && Kept(history + [e]) == Kept(history) + KeptOf(e)
    ensures Failed(history + [e]) <==> e.Attempt? && (Failed(history) || e.verdict.Uncertain?)
  {
    var longer := history + [e];
    assert longer[..|longer| - 1] == history;
    forall i, j | 0 <= i < j < |longer| && IsUncertain(longer[i]) && NoRestart(longer, i, j + 1) ensures longer[j].verdict.Refused? {
      assert !longer[j].Restart?;
      assert NoRestart(history, i, if j < |history| then j + 1 else j);
    }
    if Failed(history) && e.Attempt? {
      var i :| 0 <= i < |history| && IsUncertain(history[i]) && NoRestart(history, i, |history|);
      assert IsUncertain(longer[i]) && NoRestart(longer, i, |longer|);
    }
    if e.Attempt? && e.verdict.Uncertain? {
      assert IsUncertain(longer[|history|]) && NoRestart(longer, |history|, |longer|);
    }
    if Failed(longer) {
      var i :| 0 <= i < |longer| && IsUncertain(longer[i]) && NoRestart(longer, i, |longer|);
      assert !longer[|history|].Restart?;
      if i < |history| {
        assert NoRestart(history, i, |history|);
      }
    }
  }

  /** Opening reads back exactly the batches held, and cuts the log just behind them. */
  lemma OpenReadsBack(d: Disk, uuid: Uuid, batches: seq<seq<PendingRecord>>)
    requires Holds(d, uuid, batches)
    ensures Open(d) == Opened(d.(log := CommittedBytes(uuid, batches)), Ok((WriterOf(uuid, batches), NumberedLog(batches, 1))))
  {
    hide EncodeManifest;
    hide ReadManifest;
    hide VerifyLogHeader;
    hide LogHeader;
    hide Loggable;
    hide LogBytes;
    hide Scan;
    var committed := CommittedBytes(uuid, batches);
    ManifestRoundTrip(d.manifest, Manifest(uuid, |committed|));
    assert committed[..LOG_HEADER_LEN] == LogHeader(uuid) && committed[LOG_HEADER_LEN..] == LogBytes(batches, 1, 1);
    assert d.log[..|committed|] == committed;
    assert d.log[..LOG_HEADER_LEN] == LogHeader(uuid);
    HeaderVerifiesExactly(d.log, uuid);
    ScanReturnsTheBatches(batches, 1, 1);
    NumberedLength(batches, 1);
    PlainOfNumbered(batches, 1);
  }

  /** The files a writer could have left, and no others, open. */
  lemma OpensExactly(d: Disk)
    ensures Open(d).store.Ok? <==> exists uuid, batches :: Holds(d, uuid, batches)
  {
    if Open(d).store.Ok? {
      OpenedHolds(d);
    }
    if uuid, batches :| Holds(d, uuid, batches) {
      OpenReadsBack(d, uuid, batches);
    }
  }

  lemma OpenedHolds(d: Disk)
    requires Open(d).store.Ok?
    ensures Holds(d, ReadManifest(d.manifest).value.uuid, PlainLog(Open(d).store.value.1))
  {
    hide EncodeManifest;
    hide ReadManifest;
    hide VerifyLogHeader;
    hide LogHeader;
    hide Loggable;
    hide LogBytes;
    hide Scan;
    hide PlainLog;
    var m := ReadManifest(d.manifest).value;
    var log := d.log[..m.committedLength];
    var batches := Open(d).store.value.1;
    ReadLengthFits(d.manifest);
    ManifestRoundTrip(d.manifest, m);
    HeaderVerifiesExactly(d.log, m.uuid);
    LogBijection(log[LOG_HEADER_LEN..], batches);
    assert log[..LOG_HEADER_LEN] == d.log[..LOG_HEADER_LEN];
    assert log == log[..LOG_HEADER_LEN] + log[LOG_HEADER_LEN..];
  }

  /** A batch that framing accepts: data records that fit, with numbers left for them. */
  ghost predicate Frameable(w: Writer, records: seq<PendingRecord>) {
    (forall r :: r in records ==> Appendable(r) && Fits(r.payload)) && w.metadata.nextSequence + |records| < U64
  }

  /**
   Once anything may have been written, a failure closes the writer; until then nothing is
   written and the writer stays as it was.  An append is acknowledged exactly when nothing
   fails.
   */
  lemma FailuresClose(d: Disk, w: Writer, records: seq<PendingRecord>, fault: Fault)
    requires w.manifest.committedLength <= |d.log|
    ensures var o := Append(d, w, records, fault);
            var long := w.manifest.committedLength + |BatchBytes(w.metadata.nextBatch, w.metadata.nextSequence, records)| >= U64;
            && (o.result.Ok? <==> !w.poisoned && Frameable(w, records) && !long && fault.NoFault?)
            && (w.poisoned || !Frameable(w, records) ==> o.disk == d && o.writer == w)
            && (!w.poisoned && Frameable(w, records) && (fault.TornLog? || !long) && !fault.NoFault? ==>
                  o.writer == w.(poisoned := true) && o.result == Err(Persistence))
            && (o.disk.manifest != d.manifest ==> o.result.Ok? || o.writer.poisoned)
            && d.log[..w.manifest.committedLength] <= o.disk.log
  {
    hide BatchBytes;
    hide EncodeManifest;
    hide Fits;
    hide Numbered;
  }

  lemma {:induction false} NumberedLength(batches: seq<seq<PendingRecord>>, sequence: nat)
    ensures |NumberedLog(batches, sequence)| == |batches|
    decreases |batches|
  {
    if batches != [] {
      NumberedLength(batches[1..], sequence + |batches[0]| + 1);
    }
  }

  lemma WrittenBehind(log: Bytes, offset: nat, bytes: Bytes)
    requires offset <= |log|
    ensures log[..offset] + bytes <= WriteAt(log, offset, bytes)
  {
  }

  /** The bytes of one more batch, wherever the manifest says they start. */
  lemma OneMoreBatch(uuid: Uuid, batches: seq<seq<PendingRecord>>, records: seq<PendingRecord>)
    requires Loggable(batches, 1, 1) && Writable(records)
    ensures var framed := BatchBytes(1 + |batches|, NextSequence(batches, 1), records);
            && CommittedBytes(uuid, batches + [records]) == CommittedBytes(uuid, batches) + framed
            && Advanced(WriterOf(uuid, batches), framed, |records|) == WriterOf(uuid, batches + [records])
    ensures |CommittedBytes(uuid, batches + [records])| < U64 ==> Loggable(batches + [records], 1, 1)
  {
    CommittedOneMore(uuid, batches, records);
    CountersFollow(uuid, batches + [records]);
    NextSequenceSnoc(batches, records, 1);
    if |CommittedBytes(uuid, batches + [records])| < U64 {
      LoggableOneMore(batches, records);
    }
    hide Loggable;
    AdvancedIs(uuid, batches, records, BatchBytes(1 + |batches|, NextSequence(batches, 1), records));
  }

  /** The numbers used so far are fewer than the committed bytes. */
  lemma CountersFollow(uuid: Uuid, batches: seq<seq<PendingRecord>>)
    ensures NextSequence(batches, 1) < |CommittedBytes(uuid, batches)| && 1 + |batches| < |CommittedBytes(uuid, batches)|
  {
    LogCounts(batches, 1, 1);
    hide LogBytes;
    hide NextSequence;
  }

  lemma AdvancedIs(uuid: Uuid, batches: seq<seq<PendingRecord>>, records: seq<PendingRecord>, framed: Bytes)
    requires CommittedBytes(uuid, batches + [records]) == CommittedBytes(uuid, batches) + framed
    requires NextSequence(batches + [records], 1) == NextSequence(batches, 1) + |records| + 1
    ensures Advanced(WriterOf(uuid, batches), framed, |records|) == WriterOf(uuid, batches + [records])
  {
    hide CommittedBytes;
    hide NextSequence;
  }

  lemma CommittedOneMore(uuid: Uuid, batches: seq<seq<PendingRecord>>, records: seq<PendingRecord>)
    ensures CommittedBytes(uuid, batches + [records])
            == CommittedBytes(uuid, batches) + BatchBytes(1 + |batches|, NextSequence(batches, 1), records)
  {
    hide BatchBytes;
    hide LogHeader;
    LogBytesSnoc(batches, records, 1, 1);
    hide LogBytes;
  }

  lemma LoggableOneMore(batches: seq<seq<PendingRecord>>, records: seq<PendingRecord>)
    requires Loggable(batches, 1, 1) && Writable(records) && NextSequence(batches, 1) + |records| + 1 < U64 && |batches| + 2 < U64
    ensures Loggable(batches + [records], 1, 1)
  {
    hide Writable;
    hide BatchBytes;
    LogBytesSnoc(batches, records, 1, 1);
    hide LogBytes;
    hide NextSequence;
  }

  lemma WritableRecords(records: seq<PendingRecord>)
    requires AllAppendable(records) && AllFit(records)
    ensures Writable(records)
  {
  }

  /** What an append by a healthy writer leaves on disk, whichever way it ends. */
  lemma AppendHolds(uuid: Uuid, batches: seq<seq<PendingRecord>>, d: Disk, records: seq<PendingRecord>, fault: Fault)
    requires Holds(d, uuid, batches)
    ensures var (w, o) := (WriterOf(uuid, batches), Append(d, WriterOf(uuid, batches), records, fault));
            && Holds(o.disk, uuid, batches + KeptOf(Attempt(records, VerdictOf(w, o, fault))))
            && CommittedBytes(uuid, batches) <= o.disk.log
            && (o.writer.poisoned ==> VerdictOf(w, o, fault).Uncertain? && o.writer.manifest == w.manifest)
            && (!o.writer.poisoned ==>
                 var kept := batches + KeptOf(Attempt(records, VerdictOf(w, o, fault)));
                 !VerdictOf(w, o, fault).Uncertain? && o.writer == WriterOf(uuid, kept))
  {
    hide BatchBytes;
    hide EncodeManifest;
    hide Loggable;
    hide AllAppendable;
    hide AllFit;
    hide WriteAt;
    hide CommittedBytes;
    hide NextSequence;
    assert batches + [] == batches;
    if AllAppendable(records) && AllFit(records) {
      WritableRecords(records);
      OneMoreBatch(uuid, batches, records);
      WrittenBehind(d.log, |CommittedBytes(uuid, batches)|, BatchBytes(1 + |batches|, NextSequence(batches, 1), records));
      assert d.log[..|CommittedBytes(uuid, batches)|] == CommittedBytes(uuid, batches);
    }
  }

  lemma CreatedIsSafe(uuid: Uuid)
    ensures Safe(Created(uuid), uuid)
  {
    hide EncodeManifest;
    hide LogHeader;
    assert LogHeader(uuid) + [] == LogHeader(uuid);
  }

  lemma PoisonedIsSafe(s: System, e: Event, t: System, uuid: Uuid)
    requires Safe(s, uuid) && e.AppendBatch? && Next(s, e, t) && s.writer.value.poisoned
    ensures Safe(t, uuid)
  {
    hide Holds;
    hide CommittedBytes;
    var entry := Attempt(e.records, Refused);
    assert t == s.(history := s.history + [entry]);
    HistoryStep(s.history, entry);
    hide Kept;
    assert Kept(s.history) + [] == Kept(s.history);
  }

  lemma AppendIsSafe(s: System, e: Event, t: System, uuid: Uuid)
    requires Safe(s, uuid) && e.AppendBatch? && Next(s, e, t) && !s.writer.value.poisoned
    ensures Safe(t, uuid)
  {
    var (w, batches) := (s.writer.value, Kept(s.history));
    hide Append;
    var o := Append(s.disk, w, e.records, e.fault);
    AppendHolds(uuid, batches, s.disk, e.records, e.fault);
    hide Holds;
    hide VerdictOf;
    HistoryStep(s.history, Attempt(e.records, VerdictOf(w, o, e.fault)));
    hide Failed;
    hide FailClosed;
    hide Kept;
    hide KeptOf;
    AppendedSize(uuid, batches);
    hide CommittedBytes;
  }

  lemma AppendedSize(uuid: Uuid, batches: seq<seq<PendingRecord>>)
    ensures WriterOf(uuid, batches).manifest.committedLength == |CommittedBytes(uuid, batches)|
  {
  }

  lemma ReopenIsSafe(s: System, e: Event, t: System, uuid: Uuid)
    requires Safe(s, uuid) && e.Reopen? && Next(s, e, t)
    ensures Safe(t, uuid)
  {
    hide Open;
    hide Holds;
    hide NumberedLog;
    hide CommittedBytes;
    hide Failed;
    hide FailClosed;
    hide Kept;
    var batches := Kept(s.history);
    OpenReadsBack(s.disk, uuid, batches);
    HoldsWhenCut(s.disk, uuid, batches);
    HistoryStep(s.history, Restart);
    assert Kept(s.history) + [] == Kept(s.history);
  }

  lemma HoldsWhenCut(d: Disk, uuid: Uuid, batches: seq<seq<PendingRecord>>)
    requires Holds(d, uuid, batches)
    ensures Holds(d.(log := CommittedBytes(uuid, batches)), uuid, batches)
    ensures WriterOf(uuid, batches).manifest.committedLength == |CommittedBytes(uuid, batches)|
  {
    hide EncodeManifest;
    hide Loggable;
    hide CommittedBytes;
  }

  /** Every event keeps the store safe. */
  lemma NextIsSafe(s: System, e: Event, t: System, uuid: Uuid)
    requires Safe(s, uuid) && Next(s, e, t)
    ensures Safe(t, uuid)
  {
    match e
    case AppendBatch(_, _) =>
      if s.writer.value.poisoned {
        PoisonedIsSafe(s, e, t, uuid);
      } else {
        AppendIsSafe(s, e, t, uuid);
      }
    case Crash =>
    case Reopen(_) => ReopenIsSafe(s, e, t, uuid);
  }

  lemma {:induction false} RunsAreSafe(states: seq<System>, events: seq<Event>, uuid: Uuid, n: nat)
    requires IsRun(states, events, uuid) && n < |states|
    ensures Safe(states[n], uuid)
  {
    hide Safe;
    hide Next;
    hide IsRun;
    hide Created;
    RunSteps(states, events, uuid, n);
    if n == 0 {
      CreatedIsSafe(uuid);
    } else {
      RunsAreSafe(states, events, uuid, n - 1);
      NextIsSafe(states[n - 1], events[n - 1], states[n], uuid);
    }
  }

  lemma RunSteps(states: seq<System>, events: seq<Event>, uuid: Uuid, n: nat)
    requires IsRun(states, events, uuid) && n < |states|
    ensures |states| == |events| + 1 && if n == 0 then states[0] == Created(uuid) else Next(states[n - 1], events[n - 1], states[n])
  {
    hide Next;
    hide Created;
    if n > 0 {
      assert Next(states[n - 1], events[n - 1], states[n - 1 + 1]);
    }
  }

  // ------------------------------------------------------------------ main theorems

  /**
   Crash safety: whatever happened, opening the files succeeds and reads back the kept
   batches in order, numbered from 1; and the writer was fail-closed throughout.
   */
  lemma ReplayReturnsWhatWasKept(states: seq<System>, events: seq<Event>, uuid: Uuid)
    requires IsRun(states, events, uuid)
    ensures var last := states[|events|];
            && Open(last.disk).store.Ok? && Open(last.disk).store.value.1 == NumberedLog(Kept(last.history), 1)
            && FailClosed(last.history)
            && (last.writer.Some? && !last.writer.value.poisoned ==> Open(last.disk).store.value.0 == last.writer.value)
  {
    var last := states[|events|];
    RunsAreSafe(states, events, uuid, |events|);
    OpenReadsBack(last.disk, uuid, Kept(last.history));
    hide Open;
    hide Holds;
  }

  lemma {:induction false} KeptParts(before: seq<Entry>, session: seq<Entry>)
    ensures Kept(before + session) == Kept(before) + Kept(session)
    ensures AllAcknowledged(before + session) == AllAcknowledged(before) + AllAcknowledged(session)
    decreases |session|
  {
    hide KeptOf;
    hide AcknowledgedOf;
    if session == [] {
      assert before + session == before;
    } else {
      var (init, last) := (session[..|session| - 1], session[|session| - 1]);
      KeptParts(before, init);
      assert session == init + [last] && before + session == (before + init) + [last];
      KeptSnoc(before + init, last);
      KeptSnoc(init, last);
    }
  }

  lemma KeptSnoc(history: seq<Entry>, e: Entry)
    ensures Kept(history + [e]) == Kept(history) + KeptOf(e)
    ensures AllAcknowledged(history + [e]) == AllAcknowledged(history) + AcknowledgedOf(e)
  {
    hide KeptOf;
    hide AcknowledgedOf;
    assert (history + [e])[..|history|] == history;
  }

  /** Within one session the kept batches are the acknowledged ones, then at most one uncertain batch. */
  ghost predicate AtMostOneMore(session: seq<Entry>) {
    || Kept(session) == AllAcknowledged(session)
    || exists i :: 0 <= i < |session| && IsUncertain(session[i]) && Kept(session) == AllAcknowledged(session) + [session[i].records]
  }

  lemma {:induction false} SessionKeeps(session: seq<Entry>)
    requires FailClosed(session) && NoRestart(session, 0, |session|)
    ensures AtMostOneMore(session)
    ensures !Failed(session) ==> Kept(session) == AllAcknowledged(session)
    decreases |session|
  {
    if session != [] {
      var (head, e) := (session[..|session| - 1], session[|session| - 1]);
      assert session == head + [e];
      SessionHead(session, head, e);
      SessionKeeps(head);
      hide FailClosed;
      hide NoRestart;
      HistoryStep(head, e);
      LastEntry(session, head, e);
    }
  }

  /** The start of a session is one, and its last entry is refused once something has failed. */
  lemma SessionHead(session: seq<Entry>, head: seq<Entry>, e: Entry)
    requires FailClosed(session) && NoRestart(session, 0, |session|) && session == head + [e]
    ensures FailClosed(head) && NoRestart(head, 0, |head|) && e.Attempt? && (Failed(head) ==> e.verdict.Refused?)
  {
    var n := |head|;
    assert session[n] == e;
    forall i, j | 0 <= i < j < n && IsUncertain(head[i]) && NoRestart(head, i, j + 1) ensures head[j].verdict.Refused? {
      assert session[i] == head[i] && session[j] == head[j];
      assert NoRestart(session, i, j + 1);
    }
    assert !session[n].Restart?;
    forall k | 0 <= k < n ensures !head[k].Restart? {
      assert head[k] == session[k];
    }
    if Failed(head) {
      var i :| 0 <= i < n && IsUncertain(head[i]) && NoRestart(head, i, n);
      assert IsUncertain(session[i]) && NoRestart(session, i, n + 1);
    }
  }

  lemma LastEntry(session: seq<Entry>, head: seq<Entry>, e: Entry)
    requires session == head + [e] && e.Attempt? && (Failed(head) ==> e.verdict.Refused?)
    requires AtMostOneMore(head) && (!Failed(head) ==> Kept(head) == AllAcknowledged(head))
    requires Failed(session) <==> Failed(head) || e.verdict.Uncertain?
    ensures AtMostOneMore(session) && (!Failed(session) ==> Kept(session) == AllAcknowledged(session))
  {
    assert session[..|session| - 1] == head && session[|head|] == e;
    assert Kept(session) == Kept(head) + KeptOf(e) && AllAcknowledged(session) == AllAcknowledged(head) + AcknowledgedOf(e);
    if e.verdict.Refused? {
      if Kept(head) != AllAcknowledged(head) {
        var i :| 0 <= i < |head| && IsUncertain(head[i]) && Kept(head) == AllAcknowledged(head) + [head[i].records];
        assert IsUncertain(session[i]) && session[i].records == head[i].records;
      }
    } else if IsUncertain(e) {
      assert IsUncertain(session[|head|]);
    }
  }

  /**
   From one open to the next: what the next open replays is what this one replayed, then
   the batches acknowledged since, then at most the one batch whose outcome was uncertain.
   */
  lemma NextOpenAddsTheSession(states: seq<System>, events: seq<Event>, uuid: Uuid, before: seq<Entry>, session: seq<Entry>)
    requires IsRun(states, events, uuid)
    requires states[|events|].history == before + [Restart] + session && NoRestart(session, 0, |session|)
    ensures var replayed := Open(states[|events|].disk).store;
            && replayed.Ok?
            && (exists last :: LastOf(session, last) && PlainLog(replayed.value.1) == Kept(before) + AllAcknowledged(session) + last)
  {
    var history := states[|events|].history;
    ReplayReturnsWhatWasKept(states, events, uuid);
    PlainOfNumbered(Kept(history), 1);
    hide IsRun;
    hide Open;
    KeptAcrossRestart(before, session);
    SuffixFailsClosed(before + [Restart], session);
    SessionKeeps(session);
    LastKept(session, Kept(before));
  }

  lemma KeptAcrossRestart(before: seq<Entry>, session: seq<Entry>)
    ensures Kept(before + [Restart] + session) == Kept(before) + Kept(session)
  {
    KeptParts(before + [Restart], session);
    KeptSnoc(before, Restart);
    hide Kept;
    assert Kept(before) + [] == Kept(before);
  }

  lemma SuffixFailsClosed(before: seq<Entry>, session: seq<Entry>)
    requires FailClosed(before + session)
    ensures FailClosed(session)
  {
    var (history, offset) := (before + session, |before|);
    forall i, j | 0 <= i < j < |session| && IsUncertain(session[i]) && NoRestart(session, i, j + 1) ensures session[j].verdict.Refused? {
      assert history[i + offset] == session[i] && history[j + offset] == session[j];
      forall k | i + offset <= k < j + offset + 1 ensures !history[k].Restart? {
        assert history[k] == session[k - offset];
      }
      assert NoRestart(history, i + offset, j + offset + 1);
    }
  }

  lemma LastKept(session: seq<Entry>, kept: seq<seq<PendingRecord>>)
    requires AtMostOneMore(session)
    ensures exists last :: LastOf(session, last) && kept + Kept(session) == kept + AllAcknowledged(session) + last
  {
    hide Kept;
    hide AllAcknowledged;
    if Kept(session) == AllAcknowledged(session) {
      assert LastOf(session, []);
      assert kept + AllAcknowledged(session) + [] == kept + AllAcknowledged(session);
    } else {
      var i :| 0 <= i < |session| && IsUncertain(session[i]) && Kept(session) == AllAcknowledged(session) + [session[i].records];
      assert LastOf(session, [session[i].records]);
      assert kept + (AllAcknowledged(session) + [session[i].records]) == kept + AllAcknowledged(session) + [session[i].records];
    }
  }

  ghost predicate LastOf(session: seq<Entry>, last: seq<seq<PendingRecord>>) {
    last == [] || exists i :: 0 <= i < |session| && IsUncertain(session[i]) && last == [session[i].records]
  }

  /** No event, opening included, ever changes a byte below the committed length. */
  lemma CommittedBytesStay(states: seq<System>, events: seq<Event>, uuid: Uuid, n: nat)
    requires IsRun(states, events, uuid) && n < |events|
    ensures var (before, after) := (CommittedBytes(uuid, Kept(states[n].history)), CommittedBytes(uuid, Kept(states[n + 1].history)));
            && before <= states[n].disk.log && before <= states[n + 1].disk.log && before <= after
            && states[n].disk.manifest == EncodeManifest(Manifest(uuid, |before|))
            && states[n + 1].disk.manifest == EncodeManifest(Manifest(uuid, |after|))
  {
    hide Next;
    assert |states| == |events| + 1;
    hide IsRun;
    hide Safe;
    hide Kept;
    hide EncodeManifest;
    hide CommittedBytes;
    RunsAreSafe(states, events, uuid, n);
    RunsAreSafe(states, events, uuid, n + 1);
    RunSteps(states, events, uuid, n + 1);
    var (s, e, t) := (states[n], events[n], states[n + 1]);
    KeptGrows(s, e, t);
    SafeHolds(s, uuid);
    SafeHolds(t, uuid);
    CommittedPrefix(uuid, Kept(s.history), Kept(t.history));
  }

  lemma CommittedPrefix(uuid: Uuid, a: seq<seq<PendingRecord>>, b: seq<seq<PendingRecord>>)
    requires a <= b
    ensures CommittedBytes(uuid, a) <= CommittedBytes(uuid, b)
  {
    LogPrefix(a, b);
    hide LogBytes;
    hide LogHeader;
  }

  lemma SafeHolds(s: System, uuid: Uuid)
    requires Safe(s, uuid)
    ensures CommittedBytes(uuid, Kept(s.history)) <= s.disk.log
    ensures s.disk.manifest == EncodeManifest(Manifest(uuid, |CommittedBytes(uuid, Kept(s.history))|))
  {
    hide FailClosed;
    hide Loggable;
    hide CommittedBytes;
    hide EncodeManifest;
    hide Kept;
  }

  lemma KeptGrows(s: System, e: Event, t: System)
    requires Next(s, e, t)
    ensures Kept(s.history) <= Kept(t.history)
  {
    hide Open;
    hide Append;
    if |t.history| > |s.history| {
      assert t.history[..|t.history| - 1] == s.history;
    }
  }

  lemma {:induction false} LogPrefix(a: seq<seq<PendingRecord>>, b: seq<seq<PendingRecord>>)
    requires a <= b
    ensures LogBytes(a, 1, 1) <= LogBytes(b, 1, 1)
    decreases |b|
  {
    hide BatchBytes;
    if |a| < |b| {
      var c := b[..|b| - 1];
      LogPrefix(a, c);
      LogBytesSnoc(c, b[|b| - 1], 1, 1);
      assert b == c + [b[|b| - 1]];
    } else {
      assert a == b;
    }
  }
}
