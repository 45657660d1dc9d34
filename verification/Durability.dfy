/**
 Commands over a store that crashes, from its creation on.  A command promises a database
 that its log records; the store may acknowledge its batch, refuse it, or fail with the
 outcome unknown; and whatever happens, reopening finds the database of the acknowledged
 commands, or that database after the one command whose outcome was unknown.
 */
module Durability {
  import opened Prelude
  import opened Frames
  import opened Manifests
  import opened Storage
  import opened CrashSafety
  import opened Payload
  import opened Replay
  import Keepers
  import opened Logging
  import opened Databases
  import opened Restart
  import opened Lineage

  /** A database, with the bound of its identities. */
  datatype Promise = Promise(kept: Keepers.Kept, bound: nat)

  /** Nothing has been kept before the bootstrap batch. */
  const NOTHING_KEPT := Promise(Keepers.EMPTY, 0)

  /** In good order for this log, or nothing at all while the log is empty. */
  ghost predicate Promised(p: Promise, log: seq<seq<PendingRecord>>, normal: Normalizer, parse: Parser) {
    if log == [] then p == NOTHING_KEPT else InOrder(p.kept, p.bound, Some(log), normal, parse)
  }

  /** A batch makes one database of another: the bootstrap of nothing, or what one command adds. */
  ghost predicate Makes(before: Promise, records: seq<PendingRecord>, after: Promise) {
    if before == NOTHING_KEPT then
      records == BootstrapBatch() && after.kept.roles == RoleMap(BUILTIN_ROLES) && after.kept.posits == map[]
    else Adds(before.kept, after.kept, records)
  }

  /** The same constructs, whatever else was kept or reserved meanwhile. */
  ghost predicate Same(before: Promise, after: Promise) {
    (before == NOTHING_KEPT <==> after == NOTHING_KEPT) && SameConstructs(before.kept, after.kept)
  }

  // ------------------------------------------------------------ who makes the promises

  /** Every creation command keeps its promise, for the log it found or for the batch it adds to it. */
  method KeepPromise(db: Database, c: Command, durable: bool) returns (ghost p: Promise)
    requires db.Valid() && Lineage.Askable(db, c) && db.persistent
    modifies db, db.generator
    ensures db.Valid() && db.persistent && p == Promise(db.State(), db.generator.lowerBound)
    ensures Promised(p, db.batches, db.normal, db.parse)
    ensures var before := old(Promise(db.State(), db.generator.lowerBound));
            || (db.batches == old(db.batches) && Same(before, p))
            || exists records :: db.batches == old(db.batches) + [records] && Makes(before, records, p)
  {
    hide Stable;
    hide InOrder;
    hide Lineage.Askable;
    hide Step;
    hide Adds;
    ghost var before := Promise(db.State(), db.generator.lowerBound);
    SomethingKept(before, db.batches, db.normal, db.parse);
    Execute(db, c, durable);
    p := Promise(db.State(), db.generator.lowerBound);
    SomethingKept(p, db.batches, db.normal, db.parse);
    if db.batches == old(db.batches) && !SameConstructs(before.kept, p.kept) {
      AddsNothing(before.kept, p.kept);
    }
  }

  /** A database in good order has its built-in roles, and a log that records them. */
  lemma SomethingKept(p: Promise, log: seq<seq<PendingRecord>>, normal: Normalizer, parse: Parser)
    requires InOrder(p.kept, p.bound, Some(log), normal, parse)
    ensures p != NOTHING_KEPT && log != []
  {
    hide Keepers.Sound;
    assert BUILTIN_ROLES[0] in BUILTIN_ROLES;
    assert Keepers.Holds(p.kept.roles, BUILTIN_ROLES[0]);
  }

  lemma AddsNothing(k: Keepers.Kept, t: Keepers.Kept)
    requires Adds(k, t, [])
    ensures SameConstructs(k, t)
  {
  }

  /** Bootstrapping a new store makes the first promise. */
  method MakeFirstPromise(normal: Normalizer, parse: Parser, durable: bool) returns (db: Database, ok: bool, ghost p: Promise)
    requires Stable(normal) && PlainNames(normal)
    ensures ok <==> durable
    ensures ok ==> db.Valid() && p == Promise(db.State(), db.generator.lowerBound) && db.Logged() == Some([BootstrapBatch()])
    ensures ok ==> Promised(p, [BootstrapBatch()], normal, parse) && Makes(NOTHING_KEPT, BootstrapBatch(), p)
  {
    hide Stable;
    hide PlainNames;
    hide InOrder;
    hide RoleMap;
    hide BootstrapBatch;
    db := new Database.Blank(normal, parse, true);
    ok := Bootstrap(db, durable);
    p := Promise(db.State(), db.generator.lowerBound);
  }

  /** Opening a bootstrapped store makes one too, whenever its log replays. */
  method RenewPromise(batches: seq<seq<PendingRecord>>, normal: Normalizer, parse: Parser, durable: bool) returns (opening: Result<Database, CommandError>, ghost p: Promise)
    requires Stable(normal) && PlainNames(normal)
    ensures ReplayLogical(batches, normal, parse).None? ==> opening.Err?
    ensures ReplayLogical(batches, normal, parse).Some? && ReplayLogical(batches, normal, parse).value.hasRequiredCodecs ==>
              opening.Ok? && opening.value.Valid() && p == Promise(opening.value.State(), opening.value.generator.lowerBound)
              && Promised(p, batches, normal, parse)
  {
    hide Stable;
    hide PlainNames;
    hide InOrder;
    hide ReplayLogical;
    opening := OpenDatabase(batches, normal, parse, durable);
    p := if opening.Ok? then Promise(opening.value.State(), opening.value.generator.lowerBound) else NOTHING_KEPT;
    if ReplayLogical(batches, normal, parse).Some? && ReplayLogical(batches, normal, parse).value.hasRequiredCodecs {
      SomethingKept(p, batches, normal, parse);
    }
  }

  // ----------------------------------------------------------------------- one happening

  /**
   The store, the database in memory and the batches it believes durable, the last
   acknowledged database, and the one a command of unknown outcome would have made.
   */
  datatype Life = Life(sys: System, running: bool, log: seq<seq<PendingRecord>>, acknowledged: Promise, uncertain: Option<Promise>)

  datatype Happening =
    | Commanded(records: seq<PendingRecord>, fault: Fault, done: Promise, undone: Promise)
    | Answered(now: Promise)
    | Crashed
    | Reopened(interrupted: bool, found: Promise)

  /** What the last append of a history was told. */
  function LastVerdict(history: seq<Entry>): Verdict
    requires history != [] && history[|history| - 1].Attempt?
  {
    history[|history| - 1].verdict
  }

  /**
   One happening.  A command promises a database for its log with the batch, made of the
   acknowledged one, and one for its log without it; a command that appends nothing leaves
   the constructs alone; and a reopened database is promised for the batches it replayed,
   if replay accepts them.
   */
  ghost predicate LifeNext(l: Life, h: Happening, m: Life, normal: Normalizer, parse: Parser) {
    match h
    case Commanded(records, fault, done, undone) =>
      && l.running && Next(l.sys, AppendBatch(records, fault), m.sys)
      && Promised(done, l.log + [records], normal, parse) && Makes(l.acknowledged, records, done)
      && Promised(undone, l.log, normal, parse) && Same(l.acknowledged, undone)
      && (match LastVerdict(m.sys.history)
          case Acknowledged => m == l.(sys := m.sys, log := l.log + [records], acknowledged := done)
          case Refused => m == l.(sys := m.sys, acknowledged := undone)
          case Uncertain(_) => m == l.(sys := m.sys, acknowledged := undone, uncertain := Some(done)))
    case Answered(now) =>
      l.running && Promised(now, l.log, normal, parse) && Same(l.acknowledged, now) && m == l.(acknowledged := now)
    case Crashed => Next(l.sys, Crash, m.sys) && m == l.(sys := m.sys, running := false)
    case Reopened(interrupted, found) =>
      && Next(l.sys, Reopen(interrupted), m.sys)
      && var batches := if m.sys.writer.None? then None else Some(PlainLog(Open(l.sys.disk).store.value.1));
         if batches.None? || ReplayLogical(batches.value, normal, parse).None? then m == l.(sys := m.sys, running := false)
         else Promised(found, batches.value, normal, parse) && m == Life(m.sys, true, batches.value, found, None)
  }

  /** A log one batch longer, for a database that the batch makes of another. */
  ghost predicate OneMore(before: Promise, log: seq<seq<PendingRecord>>, after: Promise, more: seq<seq<PendingRecord>>) {
    exists records :: more == log + [records] && Makes(before, records, after)
  }

  /** Without an unknown outcome the store holds the acknowledged batches; with one, perhaps its batch too. */
  ghost predicate LifeHolds(l: Life, uuid: Uuid, normal: Normalizer, parse: Parser) {
    && Safe(l.sys, uuid) && (l.running ==> l.sys.writer.Some?)
    && (l.running && !l.sys.writer.value.poisoned ==> l.uncertain.None?)
    && Promised(l.acknowledged, l.log, normal, parse)
    && (l.uncertain.None? ==> Kept(l.sys.history) == l.log)
    && (l.uncertain.Some? ==>
          || Kept(l.sys.history) == l.log
          || (Promised(l.uncertain.value, Kept(l.sys.history), normal, parse)
              && OneMore(l.acknowledged, l.log, l.uncertain.value, Kept(l.sys.history))))
  }

  lemma JustOneMore(before: Promise, same: Promise, log: seq<seq<PendingRecord>>, records: seq<PendingRecord>, after: Promise)
    requires Makes(before, records, after) && Same(before, same)
    ensures OneMore(same, log, after, log + [records])
  {
    assert Makes(same, records, after);
  }

  lemma StillOneMore(before: Promise, same: Promise, log: seq<seq<PendingRecord>>, after: Promise, more: seq<seq<PendingRecord>>)
    requires OneMore(before, log, after, more) && Same(before, same)
    ensures OneMore(same, log, after, more)
  {
    var records :| more == log + [records] && Makes(before, records, after);
    assert Makes(same, records, after);
  }

  lemma CommandHolds(l: Life, h: Happening, m: Life, uuid: Uuid, normal: Normalizer, parse: Parser)
    requires LifeHolds(l, uuid, normal, parse) && LifeNext(l, h, m, normal, parse) && h.Commanded?
    ensures LifeHolds(m, uuid, normal, parse)
  {
    hide Promised;
    hide Makes;
    hide Same;
    hide Safe;
    hide Next;
    hide Kept;
    hide OneMore;
    NextIsSafe(l.sys, AppendBatch(h.records, h.fault), m.sys, uuid);
    AppendHistory(l.sys, h.records, h.fault, m.sys);
    KeptAfter(l.sys.history, h.records, LastVerdict(m.sys.history));
    JustOneMore(l.acknowledged, h.undone, l.log, h.records, h.done);
    if l.uncertain.Some? && Kept(l.sys.history) != l.log {
      StillOneMore(l.acknowledged, h.undone, l.log, l.uncertain.value, Kept(l.sys.history));
    }
  }

  /** An attempt adds to the kept batches what its verdict says. */
  lemma KeptAfter(history: seq<Entry>, records: seq<PendingRecord>, verdict: Verdict)
    ensures Kept(history + [Attempt(records, verdict)])
            == if verdict.Acknowledged? || verdict == Uncertain(true) then Kept(history) + [records] else Kept(history)
  {
    KeptSnoc(history, Attempt(records, verdict));
  }

  /** What an append adds to the history, and when it can be anything but refused. */
  lemma AppendHistory(s: System, records: seq<PendingRecord>, fault: Fault, t: System)
    requires Next(s, AppendBatch(records, fault), t)
    ensures t.history != [] && t.history[|t.history| - 1].Attempt? && t.writer.Some?
    ensures t.history == s.history + [Attempt(records, LastVerdict(t.history))]
    ensures s.writer.value.poisoned ==> LastVerdict(t.history).Refused? && t.writer.value.poisoned
    ensures LastVerdict(t.history).Uncertain? <==> t.writer.value.poisoned && !s.writer.value.poisoned
  {
    hide Numbered;
    hide BatchBytes;
    hide EncodeManifest;
  }

  lemma AnswerHolds(l: Life, h: Happening, m: Life, uuid: Uuid, normal: Normalizer, parse: Parser)
    requires LifeHolds(l, uuid, normal, parse) && LifeNext(l, h, m, normal, parse) && h.Answered?
    ensures LifeHolds(m, uuid, normal, parse)
  {
    hide Promised;
    hide Makes;
    hide Same;
    hide Safe;
    hide Kept;
    hide OneMore;
    if l.uncertain.Some? && Kept(l.sys.history) != l.log {
      StillOneMore(l.acknowledged, h.now, l.log, l.uncertain.value, Kept(l.sys.history));
    }
  }

  lemma ReopenHolds(l: Life, h: Happening, m: Life, uuid: Uuid, normal: Normalizer, parse: Parser)
    requires LifeHolds(l, uuid, normal, parse) && LifeNext(l, h, m, normal, parse) && h.Reopened?
    ensures LifeHolds(m, uuid, normal, parse)
  {
    hide Promised;
    hide OneMore;
    hide Safe;
    hide Kept;
    hide Open;
    hide ReplayLogical;
    NextIsSafe(l.sys, Reopen(h.interrupted), m.sys, uuid);
    ReopenedBatches(l.sys, uuid);
    ReopenKeeps(l.sys, h.interrupted, m.sys);
    hide Next;
  }

  lemma ReopenKeeps(s: System, interrupted: bool, t: System)
    requires Next(s, Reopen(interrupted), t)
    ensures Kept(t.history) == Kept(s.history)
  {
    hide Open;
    if t.writer.Some? {
      assert t.history[..|t.history| - 1] == s.history;
    }
  }

  lemma ReopenedBatches(s: System, uuid: Uuid)
    requires Safe(s, uuid)
    ensures Open(s.disk).store.Ok? && PlainLog(Open(s.disk).store.value.1) == Kept(s.history)
  {
    hide Holds;
    OpenReadsBack(s.disk, uuid, Kept(s.history));
    PlainOfNumbered(Kept(s.history), 1);
    hide Open;
  }

  lemma HappeningHolds(l: Life, h: Happening, m: Life, uuid: Uuid, normal: Normalizer, parse: Parser)
    requires LifeHolds(l, uuid, normal, parse) && LifeNext(l, h, m, normal, parse)
    ensures LifeHolds(m, uuid, normal, parse)
  {
    hide LifeHolds;
    hide LifeNext;
    match h
    case Commanded(_, _, _, _) => CommandHolds(l, h, m, uuid, normal, parse);
    case Answered(_) => AnswerHolds(l, h, m, uuid, normal, parse);
    case Crashed => CrashHolds(l, h, m, uuid, normal, parse);
    case Reopened(_, _) => ReopenHolds(l, h, m, uuid, normal, parse);
  }

  lemma CrashHolds(l: Life, h: Happening, m: Life, uuid: Uuid, normal: Normalizer, parse: Parser)
    requires LifeHolds(l, uuid, normal, parse) && LifeNext(l, h, m, normal, parse) && h.Crashed?
    ensures LifeHolds(m, uuid, normal, parse)
  {
    hide Promised;
    hide OneMore;
    hide Safe;
    hide Kept;
    NextIsSafe(l.sys, Crash, m.sys, uuid);
  }

  // ----------------------------------------------------------------------- whole lives

  /** A life starts with a directory just created. */
  function Newborn(uuid: Uuid): Life {
    Life(Created(uuid), false, [], NOTHING_KEPT, None)
  }

  ghost predicate IsLife(lives: seq<Life>, happenings: seq<Happening>, uuid: Uuid, normal: Normalizer, parse: Parser) {
    && |lives| == |happenings| + 1 && lives[0] == Newborn(uuid)
    && forall i :: 0 <= i < |happenings| ==> NextAt(lives, happenings, i, normal, parse)
  }

  ghost predicate NextAt(lives: seq<Life>, happenings: seq<Happening>, i: nat, normal: Normalizer, parse: Parser)
    requires i < |happenings| && i + 1 < |lives|
  {
    LifeNext(lives[i], happenings[i], lives[i + 1], normal, parse)
  }

  lemma NewbornHolds(uuid: Uuid, normal: Normalizer, parse: Parser)
    ensures LifeHolds(Newborn(uuid), uuid, normal, parse)
  {
    hide Safe;
    CreatedIsSafe(uuid);
  }

  lemma {:induction false} LivesHold(lives: seq<Life>, happenings: seq<Happening>, uuid: Uuid, normal: Normalizer, parse: Parser, n: nat)
    requires IsLife(lives, happenings, uuid, normal, parse) && n < |lives|
    ensures LifeHolds(lives[n], uuid, normal, parse)
  {
    hide LifeNext;
    hide LifeHolds;
    hide Newborn;
    if n == 0 {
      NewbornHolds(uuid, normal, parse);
    } else {
      LivesHold(lives, happenings, uuid, normal, parse, n - 1);
      assert NextAt(lives, happenings, n - 1, normal, parse);
      HappeningHolds(lives[n - 1], happenings[n - 1], lives[n], uuid, normal, parse);
    }
  }

  /** The roles and posits that a replay of these batches rebuilds. */
  ghost predicate Rebuilds(batches: seq<seq<PendingRecord>>, k: Keepers.Kept, normal: Normalizer, parse: Parser) {
    match ReplayLogical(batches, normal, parse)
    case None => !AllPersistable(k)
    case Some(replayed) =>
      && AllPersistable(k) && (replayed.hasRequiredCodecs <==> batches != [])
      && RoleMap(replayed.roles) == k.roles && PositMap(replayed.posits) == k.posits
  }

  lemma PromiseRebuilds(p: Promise, batches: seq<seq<PendingRecord>>, normal: Normalizer, parse: Parser)
    requires Promised(p, batches, normal, parse)
    ensures Rebuilds(batches, p.kept, normal, parse)
  {
    if batches == [] {
      assert RawUtf8 in ALL_CODECS && RawUtf8 !in NOTHING.codecs;
    } else {
      hide InOrder;
      hide ReplayLogical;
      ReplayRebuildsTheDatabase(p.kept, p.bound, batches, normal, parse);
    }
  }

  /**
   Whatever commands, failures, crashes and reopens there were since the store was created,
   opening it now succeeds, and what it replays rebuilds the acknowledged database, or the
   one that the single command whose outcome was unknown makes of it.
   */
  lemma ReopeningFindsTheDatabase(lives: seq<Life>, happenings: seq<Happening>, uuid: Uuid, normal: Normalizer, parse: Parser)
    requires IsLife(lives, happenings, uuid, normal, parse)
    ensures var last := lives[|happenings|];
            && Open(last.sys.disk).store.Ok?
            && (var batches := PlainLog(Open(last.sys.disk).store.value.1);
                || (batches == last.log && Rebuilds(batches, last.acknowledged.kept, normal, parse))
                || (last.uncertain.Some? && OneMore(last.acknowledged, last.log, last.uncertain.value, batches)
                    && Rebuilds(batches, last.uncertain.value.kept, normal, parse)))
  {
    hide LifeNext;
    hide Safe;
    hide Promised;
    hide Rebuilds;
    hide Open;
    hide OneMore;
    var last := lives[|happenings|];
    LivesHold(lives, happenings, uuid, normal, parse, |happenings|);
    ReopenedBatches(last.sys, uuid);
    PromiseRebuilds(last.acknowledged, last.log, normal, parse);
    if Kept(last.sys.history) != last.log {
      PromiseRebuilds(last.uncertain.value, Kept(last.sys.history), normal, parse);
    }
  }
}
