/**
 The records of a logical export: one header, then roles, then posits, every identity
 qualified by the store it comes from.  Reading is proved to invert writing, and what
 reading accepts is what writing would have produced.
 */
module Exports {
  import opened Prelude
  import opened Times
  import opened Constructs
  import opened Payload
  import opened PositCodec
  import opened Transfer

  const EXPORT_FORMAT := "positorium.logical-export"
  const EXPORT_VERSION := 1

  datatype External = External(store: string, local: Thing)

  datatype ExternalAppearance = ExternalAppearance(role: External, thing: External)

  /** A time with its precision spelled out and no promise that the calendar has it. */
  datatype LogicalTime =
    | LogicalBeginning
    | LogicalEnd
    | LogicalYear(year: int)
    | LogicalYearMonth(year: int, month: int)
    | LogicalDate(year: int, month: int, day: int)
    | LogicalDateTime(year: int, month: int, day: int, hour: int, minute: int, second: int, nanosecond: int)

  /** The ranges of the machine integers a record carries. */
  predicate Narrow(t: LogicalTime) {
    && (!t.LogicalBeginning? && !t.LogicalEnd? ==> MIN_I32 <= t.year <= MAX_I32)
    && (t.LogicalYearMonth? || t.LogicalDate? || t.LogicalDateTime? ==> 0 <= t.month < 256)
  }

  datatype LogicalRecord =
    | Header(format: string, version: int, store: string)
    | RoleLine(identity: External, name: string, reserved: bool)
    | PositLine(identity: External, appearances: seq<ExternalAppearance>, family: string, token: string, time: LogicalTime)

  // --------------------------------------------------------------- families and times

  function FamilyName(f: Family): string {
    match f
    case StringFamily => "string"
    case IntegerFamily => "integer"
    case DecimalFamily => "decimal"
    case CertaintyFamily => "certainty"
    case JsonFamily => "json"
    case TimeFamily => "time"
  }

  function ParseFamily(name: string): Option<Family> {
    if name == "string" then Some(StringFamily)
    else if name == "integer" then Some(IntegerFamily)
    else if name == "decimal" then Some(DecimalFamily)
    else if name == "certainty" then Some(CertaintyFamily)
    else if name == "json" then Some(JsonFamily)
    else if name == "time" then Some(TimeFamily)
    else None
  }

  /** Family names are told apart, and each names its family. */
  lemma FamiliesTravel(f: Family, name: string)
    ensures ParseFamily(name) == Some(f) <==> name == FamilyName(f)
  {
  }

  function FromTime(t: Time): LogicalTime {
    match t
    case BeginningOfTime => LogicalBeginning
    case EndOfTime => LogicalEnd
    case Year(y) => LogicalYear(y)
    case YearMonth(y, m) => LogicalYearMonth(y, m)
    case Day(d) => LogicalDate(d.year, d.month, d.day)
    case Moment(d, c) => LogicalDateTime(d.year, d.month, d.day, c.hour, c.minute, c.second, c.nanosecond)
  }

  function IntoTime(t: LogicalTime): Option<Time>
    requires Narrow(t)
  {
    match t
    case LogicalBeginning => Some(BeginningOfTime)
    case LogicalEnd => Some(EndOfTime)
    case LogicalYear(y) => Some(Year(y))
    case LogicalYearMonth(y, m) => if 1 <= m <= 12 then Some(YearMonth(y, m)) else None
    case LogicalDate(y, m, d) => if ValidDate(Date(y, m, d)) then Some(Day(Date(y, m, d))) else None
    case LogicalDateTime(y, m, d, h, n, s, f) =>
      if ValidDate(Date(y, m, d)) && ValidClock(Clock(h, n, s, f)) then Some(Moment(Date(y, m, d), Clock(h, n, s, f))) else None
  }

  /** Every time survives the trip, and every accepted logical time is the one its time is written as. */
  lemma TimesTravel(t: Time, l: LogicalTime)
    requires Narrow(l)
    ensures Narrow(FromTime(t))
    ensures IntoTime(l) == Some(t) <==> l == FromTime(t)
  {
  }

  lemma TimeTravels(t: Time)
    ensures Narrow(FromTime(t)) && IntoTime(FromTime(t)) == Some(t)
  {
    TimesTravel(t, LogicalBeginning);
    TimesTravel(t, FromTime(t));
  }

  // ------------------------------------------------------------------------- writing

  function ExternalSet(store: string, appearanceSet: seq<Appearance>): (r: seq<ExternalAppearance>)
    ensures |r| == |appearanceSet|
  {
    seq(|appearanceSet|, i requires 0 <= i < |appearanceSet| => ExternalAppearance(External(store, appearanceSet[i].role), External(store, appearanceSet[i].thing)))
  }

  function RoleLineOf(store: string, r: Role): LogicalRecord {
    RoleLine(External(store, r.id), r.name, r.reserved)
  }

  function PositLineOf(store: string, p: Posit): LogicalRecord {
    PositLine(External(store, p.id), ExternalSet(store, p.appearances), FamilyName(p.value.family), p.value.token, FromTime(p.time))
  }

  function RoleLines(store: string, roles: seq<Role>): seq<LogicalRecord> {
    if roles == [] then [] else RoleLines(store, roles[..|roles| - 1]) + [RoleLineOf(store, roles[|roles| - 1])]
  }

  function PositLines(store: string, posits: seq<Posit>): seq<LogicalRecord> {
    if posits == [] then [] else PositLines(store, posits[..|posits| - 1]) + [PositLineOf(store, posits[|posits| - 1])]
  }

  function ExportRecords(store: string, s: LogicalStore): seq<LogicalRecord> {
    [Header(EXPORT_FORMAT, EXPORT_VERSION, store)] + RoleLines(store, s.roles) + PositLines(store, s.posits)
  }

  // ------------------------------------------------------------------------- reading

  /** Whether a store identifier is in its canonical spelling. */
  type Spelling = string -> bool

  datatype Reading = Reading(store: Option<string>, roles: seq<Role>, posits: seq<Posit>, sawPosit: bool)

  const UNREAD := Reading(None, [], [], false)

  predicate Local(e: External, store: string) {
    e.store == store
  }

  predicate LocalSet(appearanceSet: seq<ExternalAppearance>, store: string) {
    forall a :: a in appearanceSet ==> Local(a.role, store) && Local(a.thing, store)
  }

  function InternalSet(appearanceSet: seq<ExternalAppearance>): (r: seq<Appearance>)
    ensures |r| == |appearanceSet|
  {
    seq(|appearanceSet|, i requires 0 <= i < |appearanceSet| => Appearance(appearanceSet[i].thing.local, appearanceSet[i].role.local))
  }

  function ReadPosit(line: LogicalRecord, store: string, parse: Parser): Option<Posit>
    requires line.PositLine?
  {
    if !LocalSet(line.appearances, store) then None
    else
      var family :- ParseFamily(line.family);
      var meaning :- parse(line.token, family);
      if !Local(line.identity, store) then None
      else if !Narrow(line.time) then None
      else
        var time :- IntoTime(line.time);
        Some(Posit(line.identity.local, Sorted(InternalSet(line.appearances)), Literal(line.token, family, meaning), time))
  }

  /** One record after `count` earlier ones. */
  function ReadRecord(r: Reading, count: nat, line: LogicalRecord, spelled: Spelling, parse: Parser): Option<Reading> {
    match line
    case Header(format, version, store) =>
      if count != 0 || r.store.Some? then None
      else if format != EXPORT_FORMAT || version != EXPORT_VERSION || !spelled(store) then None
      else Some(r.(store := Some(store)))
    case RoleLine(identity, name, reserved) =>
      if r.store.None? || r.sawPosit || !Local(identity, r.store.value) then None
      else Some(r.(roles := r.roles + [Role(identity.local, name, reserved)]))
    case PositLine(_, _, _, _, _) =>
      if r.store.None? then None
      else
        var p :- ReadPosit(line, r.store.value, parse);
        Some(r.(posits := r.posits + [p], sawPosit := true))
  }

  function ReadRecords(lines: seq<LogicalRecord>, spelled: Spelling, parse: Parser): Option<Reading> {
    if lines == [] then Some(UNREAD)
    else
      var r :- ReadRecords(lines[..|lines| - 1], spelled, parse);
      ReadRecord(r, |lines| - 1, lines[|lines| - 1], spelled, parse)
  }

  ghost predicate Unreadable(lines: seq<LogicalRecord>, spelled: Spelling, parse: Parser) {
    ReadRecords(lines, spelled, parse).None?
  }

  lemma {:induction false} UnreadableStays(lines: seq<LogicalRecord>, n: nat, spelled: Spelling, parse: Parser)
    requires n <= |lines| && Unreadable(lines[..n], spelled, parse)
    ensures Unreadable(lines, spelled, parse)
    decreases |lines|
  {
    hide ReadRecord;
    if n == |lines| {
      assert lines[..n] == lines;
    } else {
      assert lines[..|lines| - 1][..n] == lines[..n];
      UnreadableStays(lines[..|lines| - 1], n, spelled, parse);
    }
  }

  lemma {:induction false} PositsReadOrdered(lines: seq<LogicalRecord>, spelled: Spelling, parse: Parser)
    requires ReadRecords(lines, spelled, parse).Some?
    ensures var r := ReadRecords(lines, spelled, parse).value; SortedSets(LogicalStore(r.roles, r.posits))
  {
    if lines != [] {
      PositsReadOrdered(lines[..|lines| - 1], spelled, parse);
      var last := lines[|lines| - 1];
      if last.PositLine? {
        SortedIsOrdered(InternalSet(last.appearances));
      }
    }
  }

  /**
   Reads an export: the store it came from and its roles and posits, their sets sorted, or
   nothing when a record is out of place, foreign or malformed, or validation refuses it.
   */
  method ReadExport(lines: seq<LogicalRecord>, spelled: Spelling, parse: Parser) returns (imported: Option<(string, LogicalStore)>)
    ensures match ReadRecords(lines, spelled, parse)
            case None => imported.None?
            case Some(r) =>
              var s := LogicalStore(r.roles, r.posits);
              && SortedSets(s)
              && imported == if r.store.Some? && Importable(s) then Some((r.store.value, s)) else None
  {
    hide ReadRecord;
    hide Importable;
    hide SortedSets;
    var r := UNREAD;
    for i := 0 to |lines|
      invariant ReadRecords(lines[..i], spelled, parse) == Some(r)
    {
      assert lines[..i + 1][..i] == lines[..i];
      var next := ReadRecord(r, i, lines[i], spelled, parse);
      if next.None? {
        UnreadableStays(lines, i + 1, spelled, parse);
        return None;
      }
      r := next.value;
    }
    assert lines[..|lines|] == lines;
    PositsReadOrdered(lines, spelled, parse);
    if r.store.None? {
      return None;
    }
    var valid := ValidateImported(LogicalStore(r.roles, r.posits));
    if !valid {
      return None;
    }
    return Some((r.store.value, LogicalStore(r.roles, r.posits)));
  }

  // ------------------------------------------------------------- reading what was written

  ghost predicate Meant(posits: seq<Posit>, parse: Parser) {
    forall p :: p in posits ==> parse(p.value.token, p.value.family) == Some(p.value.meaning) && PositCodec.Ordered(p.appearances)
  }

  lemma PositLineReads(store: string, p: Posit, parse: Parser)
    requires parse(p.value.token, p.value.family) == Some(p.value.meaning) && PositCodec.Ordered(p.appearances)
    ensures ReadPosit(PositLineOf(store, p), store, parse) == Some(p)
  {
    hide Sorted;
    hide FromTime;
    hide IntoTime;
    hide Narrow;
    hide FamilyName;
    hide ParseFamily;
    hide PositCodec.Ordered;
    assert InternalSet(ExternalSet(store, p.appearances)) == p.appearances;
    SortedOfOrdered(p.appearances);
    TimeTravels(p.time);
    FamiliesTravel(p.value.family, FamilyName(p.value.family));
  }

  lemma HeaderReads(store: string, spelled: Spelling, parse: Parser)
    requires spelled(store)
    ensures ReadRecords([Header(EXPORT_FORMAT, EXPORT_VERSION, store)], spelled, parse) == Some(Reading(Some(store), [], [], false))
  {
    var header := [Header(EXPORT_FORMAT, EXPORT_VERSION, store)];
    assert header[..0] == [];
    assert ReadRecords(header[..0], spelled, parse) == Some(UNREAD);
  }

  lemma ReadsOneMore(lines: seq<LogicalRecord>, line: LogicalRecord, spelled: Spelling, parse: Parser)
    requires ReadRecords(lines, spelled, parse).Some?
    ensures ReadRecords(lines + [line], spelled, parse)
            == ReadRecord(ReadRecords(lines, spelled, parse).value, |lines|, line, spelled, parse)
  {
    hide ReadRecord;
    assert (lines + [line])[..|lines|] == lines;
  }

  lemma {:induction false} RoleLinesRead(store: string, roles: seq<Role>, spelled: Spelling, parse: Parser)
    requires spelled(store)
    ensures ReadRecords([Header(EXPORT_FORMAT, EXPORT_VERSION, store)] + RoleLines(store, roles), spelled, parse)
            == Some(Reading(Some(store), roles, [], false))
  {
    hide ReadRecords;
    var header := [Header(EXPORT_FORMAT, EXPORT_VERSION, store)];
    if roles == [] {
      assert header + [] == header;
      HeaderReads(store, spelled, parse);
    } else {
      var (front, last) := (roles[..|roles| - 1], roles[|roles| - 1]);
      RoleLinesRead(store, front, spelled, parse);
      assert header + RoleLines(store, roles) == (header + RoleLines(store, front)) + [RoleLineOf(store, last)];
      ReadsOneMore(header + RoleLines(store, front), RoleLineOf(store, last), spelled, parse);
      assert front + [last] == roles;
    }
  }

  lemma {:induction false} PositLinesRead(head: seq<LogicalRecord>, store: string, roles: seq<Role>, posits: seq<Posit>, spelled: Spelling, parse: Parser)
    requires Meant(posits, parse) && ReadRecords(head, spelled, parse) == Some(Reading(Some(store), roles, [], false))
    ensures ReadRecords(head + PositLines(store, posits), spelled, parse) == Some(Reading(Some(store), roles, posits, posits != []))
  {
    hide ReadPosit;
    hide ReadRecords;
    if posits == [] {
      assert head + [] == head;
    } else {
      var (front, last) := (posits[..|posits| - 1], posits[|posits| - 1]);
      assert last in posits;
      PositLinesRead(head, store, roles, front, spelled, parse);
      PositLineReads(store, last, parse);
      assert head + PositLines(store, posits) == (head + PositLines(store, front)) + [PositLineOf(store, last)];
      ReadsOneMore(head + PositLines(store, front), PositLineOf(store, last), spelled, parse);
      assert front + [last] == posits;
    }
  }

  /** Reading an export gives back the exported store, whatever its families, times and sets. */
  lemma ExportReadsBack(store: string, s: LogicalStore, spelled: Spelling, parse: Parser)
    requires spelled(store) && Meant(s.posits, parse)
    ensures ReadRecords(ExportRecords(store, s), spelled, parse) == Some(Reading(Some(store), s.roles, s.posits, s.posits != []))
  {
    hide ReadRecords;
    RoleLinesRead(store, s.roles, spelled, parse);
    PositLinesRead([Header(EXPORT_FORMAT, EXPORT_VERSION, store)] + RoleLines(store, s.roles), store, s.roles, s.posits, spelled, parse);
  }

  // --------------------------------------------------------- writing what was read

  ghost predicate SortedLines(lines: seq<LogicalRecord>) {
    forall line :: line in lines && line.PositLine? ==> PositCodec.Ordered(InternalSet(line.appearances))
  }

  lemma PositLineWrites(line: LogicalRecord, store: string, parse: Parser)
    requires line.PositLine? && PositCodec.Ordered(InternalSet(line.appearances)) && ReadPosit(line, store, parse).Some?
    ensures PositLineOf(store, ReadPosit(line, store, parse).value) == line
  {
    hide Sorted;
    hide FromTime;
    hide IntoTime;
    hide Narrow;
    hide FamilyName;
    hide ParseFamily;
    hide PositCodec.Ordered;
    var p := ReadPosit(line, store, parse).value;
    FamiliesTravel(p.value.family, line.family);
    SortedOfOrdered(InternalSet(line.appearances));
    assert ExternalSet(store, p.appearances) == line.appearances;
    TimesTravel(p.time, line.time);
  }

  lemma RoleLinesSnoc(store: string, roles: seq<Role>, r: Role)
    ensures RoleLines(store, roles + [r]) == RoleLines(store, roles) + [RoleLineOf(store, r)]
  {
    assert (roles + [r])[..|roles|] == roles;
  }

  lemma PositLinesSnoc(store: string, posits: seq<Posit>, p: Posit)
    ensures PositLines(store, posits + [p]) == PositLines(store, posits) + [PositLineOf(store, p)]
  {
    assert (posits + [p])[..|posits|] == posits;
  }

  ghost predicate WrittenAs(lines: seq<LogicalRecord>, r: Reading) {
    && (r.store.None? ==> lines == [] && r == UNREAD)
    && (r.store.Some? ==> lines == ExportRecords(r.store.value, LogicalStore(r.roles, r.posits)))
    && (!r.sawPosit ==> r.posits == [])
  }

  lemma RecordWrites(front: seq<LogicalRecord>, r: Reading, line: LogicalRecord, spelled: Spelling, parse: Parser)
    requires WrittenAs(front, r) && SortedLines([line]) && ReadRecord(r, |front|, line, spelled, parse).Some?
    ensures WrittenAs(front + [line], ReadRecord(r, |front|, line, spelled, parse).value)
  {
    hide ReadPosit;
    hide PositLineOf;
    var next := ReadRecord(r, |front|, line, spelled, parse).value;
    match line {
      case Header(_, _, _) =>
      case RoleLine(identity, name, reserved) =>
        var role := Role(identity.local, name, reserved);
        RoleLinesSnoc(r.store.value, r.roles, role);
        assert line == RoleLineOf(r.store.value, role);
        assert front == [Header(EXPORT_FORMAT, EXPORT_VERSION, r.store.value)] + RoleLines(r.store.value, r.roles);
      case PositLine(_, _, _, _, _) =>
        assert line in [line];
        PositLineWrites(line, r.store.value, parse);
        PositLinesSnoc(r.store.value, r.posits, ReadPosit(line, r.store.value, parse).value);
    }
  }

  /** What reading accepts with sorted sets is, record for record, the export of what it returns. */
  lemma {:induction false} AcceptedIsExport(lines: seq<LogicalRecord>, spelled: Spelling, parse: Parser)
    requires SortedLines(lines) && ReadRecords(lines, spelled, parse).Some?
    ensures WrittenAs(lines, ReadRecords(lines, spelled, parse).value)
  {
    hide ReadRecord;
    hide WrittenAs;
    if lines == [] {
      UnreadIsNothing();
    } else {
      var (front, last) := (lines[..|lines| - 1], lines[|lines| - 1]);
      assert lines == front + [last] && last in lines;
      AcceptedIsExport(front, spelled, parse);
      RecordWrites(front, ReadRecords(front, spelled, parse).value, last, spelled, parse);
    }
  }

  lemma UnreadIsNothing()
    ensures WrittenAs([], UNREAD)
  {
  }
}
