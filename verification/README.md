# Positorium, modelled and proved

Positorium is an embedded evidence database.  Roles, appearances, appearance sets and
posits are kept once each and indexed seven ways; every command appends one atomic batch
to an append-only store; and a query engine joins posit patterns, some of them reduced to
a temporal snapshot or to the information in effect.  This project models those parts as
Dafny programs and proves what they promise.

- `Times`, `Temporal`: times of differing precision as half-open intervals, and the linear
  reduction to temporal maxima.
- `Effect`: information in effect.
- `Constructs`, `Keepers`, `Databases`, `Restart`: kept constructs, indexes, staged commands,
  and rebuilding a database from its log; `Assertions`: what an assertion command makes is what
  information in effect reads.
- `Bindings`, `Matching`, `Patterns`, `JoinOrder`, `LatestPatterns`, `Branches`: bindings as a
  partial join, backtracking match, what a pattern means, and why its place in a branch does
  not matter.
- `SelfReference`, `Lineage`: the exact databases in which that holds for every pattern, and
  why commands build no other.
- `Families`, `FamilyOrder`: the literal families that bindings carry, and when they do not
  depend on the order of a branch.
- `Answers`, `Multiplicity`: what patterns answer and how often, said of posits and rows alone.
- `IndexAccess`, `Evaluation`, `Evaluator`, `StrayPosits`: bitmap access against a full scan.
- `Crc`, `Encoding`, `Utf8`, `Decimals`, `Payload`, `PositCodec`, `Manifests`, `Frames`,
  `LogReading`, `Storage`, `CrashSafety`, `Replay`, `Logging`: bytes, records, frames, the
  writer as a state machine with crashes, and replay.  `WireFormat`: the bytes themselves, field
  by field; `ReplayLaws`: which logs replay, record by record.
- `Durability`: commands over a store that fails and crashes, from its creation on.
- `Terrain`: frames, profiles, superset sums and reconciliation.
- `Exports`, `Transfer`: logical export, identity remapping and import.
- `Budget`: the shared ledger of query workspace.
- `Examples`: concrete stores and databases on which the properties below fail.
- `Prelude`, `Sequences`, `Bits`: shared vocabulary.

Code that changes state is a class or a loop proved against a specification function; the
promises are lemmas about those functions and about whole runs of them.

## What the proofs found

Each of these is a property that does not hold as generally as one would expect.  The model
keeps the code's behaviour, gives an input on which the property fails, and proves exactly
when it holds.

- A `latest` pattern whose posit variable is also one of its own Thing variables can depend
  on the order of its branch: an outer binding that recalls a superseded posit brings it back
  (`LatestPatterns.DroppedRowReturns`).  All orders of all branches agree exactly in the
  databases where no two posits of one set both appear in that set with one definitely before
  the other (`SelfReference.EveryOrderAgrees`); elsewhere one branch of two patterns and its
  reverse return different bags (`SelfReference.ContestedOrders`).  Commands over existing
  Things never build such posits (`Lineage.CommandedDatabasesAgree`), but import does:
  validation accepts a store that has them (`Examples.ContestedStoreIsImportable`), and
  importing and opening it gives such a database (`Examples.ImportContested`).
- Literal equality compares tokens and ignores families (src/literal.rs:94-96), and a bound
  literal keeps the family it was first bound under, so the family a joined row carries can
  depend on the order of the branch, and a later comparison decides by it
  (`FamilyOrder.MixedOrders`, `FamilyOrder.ComparisonDependsOnOrder`).  Orders agree families
  included exactly when, besides, no two kept values share a token under different families
  (`FamilyOrder.EveryCarriedOrderAgrees`).  The integer 1 and the JSON value 1 do, and import
  validation accepts both (`Examples.MixedStoreIsImportable`, `Examples.ImportMixed`).
- Bitmap access reports an error where a full scan returns no rows, exactly when the input
  binds nothing but the posit variable, and binds it to something that is not a posit
  (`Evaluation.CandidatePosits`, `StrayPosits.RecalledThingIsStray`).
- A posit over an empty set, or with a genesis identity in its set, is written to the log
  without complaint and refused on the next open.  Replay accepts a log exactly when no kept
  posit is like that (`Restart.ReplayRebuildsTheDatabase`); `Examples.KeepUnpersistable` keeps
  one.  The creation commands accept the empty set; the query grammar asks for at least one
  appearance (src/traqula.pest:42), so only a direct caller of the commands gets there.
- Import validation accepts role names that are empty or not in canonical form; the import
  then fails after writing, exactly in that case (`Transfer.ImportStore`,
  `Transfer.ImportRefused`, `Examples.ImportNameless`).
- A proposition is known by its set, token and time, and a token does not name its family.  An
  assertion whose proposition is already there with a literal of another family is answered by
  that posit, which is no assertion, and information in effect is refused from its time on.  An
  answered assertion is evidence exactly when that is not so
  (`Assertions.AssertionsAreEvidence`); `Examples.AssertPreempted` makes one that is not.  The
  time family accepts any token but the empty one (src/literal.rs:200-206), `100%` included.
- Moments compare as their instants do, but not over a leap second: the last nanosecond of a
  minute overlaps it (`Times.MomentsCompareAsInstants`, `Times.LeapSecondOverlaps`).  The storage
  format rules leap seconds out (docs/reference/STORAGE.md:210-212), but the code takes them,
  and the model follows the code.
- Months and years contain exactly their own days, except the last date of the calendar, which
  runs to the end of time (`Times.MonthContainsItsDays`).
- An export is importable exactly when the store was bootstrapped (`Transfer.ExportsImport`);
  a store whose bootstrap was never appended exports, and its export is refused
  (`Transfer.NewStoreIsNotImportable`).
- Draining a budgeted vector gives back more than it reserved exactly when its payload
  saturated 64 bits, which only the largest memory limit permits (`Budget.DrainCondition`).
  `Budget.SaturateAndIterate` pushes and drains such a vector; the heap size of a value is a
  parameter of the model, and no two values in memory are that large, so a running program
  does not get there.

## Abstractions

- Canonical role names, parsed literal meanings and the spelling of store identifiers are
  parameters (`Normalizer`, `Parser`, `Spelling`): any function, idempotent where the code
  normalises twice.  A `char` is a Unicode scalar value.
- The calendar is proleptic Gregorian over the year range of the date library; instants carry
  nanoseconds and leap seconds.
- A manifest rename is atomic and durable.  A failure reported after it leaves the caller
  uncertain, and the writer closed.
- The files of a store are two byte strings.  A failed log write leaves an arbitrary tail
  above the committed length; a crash may follow any event.
- The owner's lock makes commands atomic.  A meter stands for every callback that may cancel
  or refuse work.
- Access paths and cost estimates are arbitrary: results are proved equal for every choice.

## Model

| member | source | states |
|---|---|---|
| `Bindings.Bind` | src/traqula/query.rs:130-153 | binding a name is the partial join with that one name: a Thing is refined to a posit of the same identity, any other mismatch yields no binding, and only values of different domains are an error; a bound literal keeps the family of its first binding |
| `Bindings.BindTyped` | src/traqula/query.rs:130-153 | under one domain assignment binding never errs and its result keeps to that assignment |
| `Bindings.JoinAssociates` | src/traqula/query.rs:130-153 | the partial join of bindings is associative, the algebra that frees a query from its pattern order |
| `Bindings.JoinCommutes` | src/traqula/query.rs:130-153 | the partial join is commutative |
| `Answers.MergeMeans` | src/traqula/query.rs:130-153 | a join says what both sides say and nothing else, an identity as a posit where either side has it so |
| `Bindings.ExtendExtend` | src/traqula/query.rs:1578-1595 | joining two bindings into a relation one after the other is joining their join, or nothing when they clash |
| `Matching.MatchThing` | src/traqula/query.rs:2172-2213 | a Thing slot admits exactly its contribution joined into the input; a one-of slot recalls identities, and a bound slot under the right domains never errs |
| `Matching.MatchAppearance` | src/traqula/query.rs:2172-2213 | one member against one stored appearance yields the join of the input with that member's own contribution |
| `Matching.MatchMembers` | src/traqula/query.rs:2141-2170 | the backtracking search offers, in order, the join of its binding with every match of the remaining members, and restores the used array |
| `Matching.BindSet` | src/traqula/query.rs:2103-2108 | the set variable is joined in before the search |
| `Matching.MatchAppearanceSet` | src/traqula/query.rs:2079-2139 | the visited bindings are the join of the input with the pattern's own matches on the stored set, in visiting order |
| `Matching.VisitsExactlyTheInducedBindings` | src/traqula/query.rs:2094-2170 | a set pattern visits exactly the bindings induced by injective assignments of members to stored appearances, each once; assignments of a closed pattern use every stored appearance |
| `Matching.InjectiveIsOnto` | src/traqula/query.rs:2112-2117 | an injective choice of n among n leaves none out, which is why a closed pattern may compare lengths only |
| `Matching.DistinctExtend` | src/traqula/query.rs:2118-2139 | dropping repeated bindings commutes with joining an outer binding, so the visitor's duplicate set does not depend on the input |
| `Answers.MatchMeans` | src/traqula/query.rs:2079-2170 | without the search: a set pattern has exactly the rows that say, of some injective choice of stored appearances, what its members ask, and the set itself |
| `JoinOrder.ReduceByPosit` | src/traqula/query.rs:1551-1555 | when the rows of a set's posits come together, reducing rows is reducing posits, so an outer binding cannot change the snapshot |
| `JoinOrder.ReducedCandidates` | src/traqula/query.rs:1573-1577 | a latest reduction keeps exactly the rows of posits that no other matching posit of the same set is definitely after |
| `JoinOrder.ScanIsJoin` | src/traqula/query.rs:1480-1597 | a scan under an input is the join of the input with the same scan under the dependencies alone |
| `JoinOrder.RelationIsJoin` | src/traqula/query.rs:1500-1597 | plain, as-of, latest and in-effect patterns: the relation under an input is the natural join of the input with the pattern's own relation |
| `LatestPatterns.DroppedRowReturns` | src/traqula/query.rs:1573-1640 | the failing family: when a latest pattern's posit variable is also one of its Thing variables and its reduction drops a row, an input recalling the dropped posit brings the row back |
| `LatestPatterns.JoinsExactlyWhenStable` | src/traqula/query.rs:1480-1640 | for given dependencies, every input joins independently if and only if the pattern is stable at them: its fields are apart from its structure, or its reduction drops nothing |
| `SelfReference.EveryPatternJoins` | src/traqula/query.rs:1480-1640 | in a database every pattern joins independently at all dependencies and inputs if and only if no two posits of one set both appear in that set with one definitely before the other |
| `SelfReference.RecalledAppears` | src/traqula/query.rs:1537-1577 | a pattern whose posit variable is also one of its Thing variables finds only posits that appear in their own set |
| `SelfReference.ContestedFails` | src/traqula/query.rs:1573-1577 | a concrete latest pattern on which join independence fails in any contested database |
| `SelfReference.ContestedOrders` | src/traqula/query.rs:391-419 | in a contested database a concrete branch of two patterns and its reverse return different bags from the empty binding |
| `SelfReference.EveryOrderAgrees` | src/traqula/query.rs:391-419 | all dependency-respecting orders of all branches return the same bags of bindings if and only if the database is uncontested |
| `Families.OnPositCarries` | src/traqula/query.rs:2215-2246 | binding a posit's fields leaves a family for exactly the bound literals |
| `Families.ReducedDressed` | src/traqula/query.rs:1573-1577 | a latest reduction does not depend on families |
| `Families.PlainRun` | src/traqula/query.rs:391-419 | forgetting families, the rows of a branch are its bindings, so matching and joining never look at a family |
| `Families.StepKept` | src/traqula/query.rs:1480-1597 | every family a row carries is that of a kept value with the bound token |
| `FamilyOrder.OrdersAgreeModuloFamily` | src/traqula/query.rs:391-419 | in an uncontested database two orders of a branch return the same bag of rows once families are forgotten |
| `FamilyOrder.MixedOrders` | src/traqula/query.rs:391-419 | for any two kept posits with one token under different families, one order of a concrete branch returns a row with the first family, and the other order returns it only with the second |
| `FamilyOrder.EveryCarriedOrderAgrees` | src/traqula/query.rs:391-419 | all orders of all branches return the same rows, families included, if and only if the database is uncontested and no two kept values share a token under different families |
| `FamilyOrder.ComparisonDependsOnOrder` | src/traqula/query.rs:2401-2420 | from a row that has found two such posits, either order of reading their values finds a row; when the families cannot be compared, comparing what every row carries with a literal of the one family answers after one order and is an error after the other |
| `Examples.ContestedStoreIsImportable` | src/maintenance.rs:488-546 | validation accepts a concrete store of two posits over one set that both appear in, one definitely before the other |
| `Examples.ImportAndOpen` | src/maintenance.rs:255-337 | importing any validated store with canonical names and opening what was written gives a valid database that keeps the renamed posits |
| `Examples.ImportContested` | src/maintenance.rs:255-337 | importing the contested store and opening it gives a contested database, in which orders disagree |
| `Examples.MixedStoreIsImportable` | src/maintenance.rs:488-546 | validation accepts a concrete store that keeps the integer 1 and the JSON value 1 |
| `Examples.ImportMixed` | src/maintenance.rs:255-337 | importing the mixed store and opening it gives a database in which orders carry different families |
| `SelfReference.YoungerIsUncontested` | src/construct.rs:1255-1267 | a database whose posits are all younger than the Things of their sets is uncontested |
| `Lineage.Execute` | src/construct.rs:1159-1253 | a creation command over existing Things takes a step of a run whatever its outcome: it adds only posits younger than their Things, keeps the database sound, and either logs nothing and changes no construct or logs one batch that records exactly what it adds |
| `Lineage.Restarted` | src/construct.rs:808-865 | so does closing and reopening a database whose log replays |
| `Lineage.CommandedDatabasesAgree` | src/construct.rs:1159-1293 | throughout any run of such steps every pattern joins independently and all orders of all branches agree |
| `Lineage.LifeDescends` | src/construct.rs:1255-1293 | every posit of every database of such a run is younger than every Thing of its set |
| `Branches.StepsCommute` | src/traqula/query.rs:391-419 | two patterns whose dependencies are bound may run in either order with the same bag |
| `Branches.OrderIndependence` | src/traqula/query.rs:391-419 | any two dependency-respecting orders of the same patterns return the same bag of bindings, from any bag of rows |
| `Branches.BlockMatchIndependence` | src/traqula/query.rs:2272-2301 | a negated block has a match in one order exactly when it has one in every other |
| `Branches.StepBinds` | src/traqula/query.rs:1348-1403 | a pattern leaves bound everything it introduces and everything its input bound, and nothing else |
| `Branches.PickRunnable` | src/traqula/query.rs:1405-1439 | the chosen pattern is runnable, cheapest among the runnable and the first of equals; none is chosen only when none is runnable |
| `Branches.PlanPatterns` | src/traqula/query.rs:1405-1439 | the plan is a permutation of the branch in which every dependency is bound and each place is taken by the cheapest pattern that could run there; it fails exactly when no order binds every dependency |
| `IndexAccess.PositPostingForThings` | src/traqula/query.rs:2010-2071 | going through the appearance and set indexes gives exactly the posits whose set holds one of the Things, in the given role if any |
| `IndexAccess.RoleConstrains` | src/traqula/query.rs:1947-1972 | a structurally matching posit is in the posting of every role its pattern pins down |
| `IndexAccess.ThingConstrains` | src/traqula/query.rs:1974-2008 | a structurally matching posit is in the posting of every set of Things its pattern pins down |
| `IndexAccess.PositConstrains` | src/traqula/query.rs:1867-1887 | a posit with rows under an input that binds the posit variable is the bound one |
| `IndexAccess.CoveringScan` | src/traqula/query.rs:1743-1766 | a scan over covering posits selects the same rows in the same order as a scan over all of them |
| `IndexAccess.CandidatesAmongAll` | src/traqula/query.rs:1768-1818 | candidates in ascending identity order are the candidates among all posits in that order |
| `Evaluation.IndexedRole` | src/traqula/query.rs:1947-1972 | a role slot pins down nothing, no kept role, or one role; it errs exactly when the role variable is bound to something else |
| `Evaluation.IndexedThings` | src/traqula/query.rs:1974-2008 | a Thing slot pins down the bound identity, the recalled identities, or nothing |
| `Evaluation.CollectPostings` | src/traqula/query.rs:1859-1945 | every collected posting contains every posit that could contribute; giving up early happens only when no posit could |
| `Evaluation.IndexedCandidates` | src/traqula/query.rs:1859-1945 | the intersection contains every posit that can contribute a row under the input |
| `Evaluation.CandidatePosits` | src/traqula/query.rs:1743-1818 | whatever the access path the posits visited select the same rows as all posits; well-typed bitmap access fails exactly on a stray posit variable |
| `StrayPosits.StrayFindsNothing` | src/traqula/query.rs:1743-1766 | where bitmap access fails on a stray posit variable the pattern has no rows, so the failure hides none |
| `StrayPosits.RecalledThingIsStray` | src/traqula/query.rs:1743-1766 | the failing family is real: recalling as a posit any Thing that is none |
| `Evaluator.MatchFields` | src/traqula/query.rs:2215-2246 | the posit, value and time slots join exactly their field binding; comparable well-typed slots never err |
| `Answers.NominalMeans` | src/literal.rs:98-122 | comparing literals is an error exactly across families that are not both numeric; otherwise they are equal exactly when their meanings are, and times when their tokens are |
| `Answers.FieldMeans` | src/traqula/query.rs:2215-2246 | a posit's fields bind exactly the posit, value and time variables, as that posit, its token and its time, when its literals compare equal |
| `Answers.StructuralMeans` | src/traqula/query.rs:1528-1549 | the structural rows of a pattern are its set's matches on exactly the posits over by the cutoff |
| `Answers.SupersededMeans` | src/traqula/query.rs:1551-1577 | a posit is superseded exactly when one of its set that is over by the cutoff and answers the pattern is definitely after it |
| `Answers.PlainAnswers` | src/traqula/query.rs:1480-1597 | without scans or joins: a plain pattern's relation holds exactly the rows that say of some kept posit what the pattern asks, and what the input said |
| `Answers.SnapshotAnswers` | src/traqula/query.rs:1500-1577 | with a cutoff: exactly the joins of the input with a row that answers on a posit of the snapshot, which is over by the cutoff and not superseded |
| `Answers.SeenBeforeFields` | src/traqula/query.rs:1500-1527 | such a pattern does not see what the input says of its own fields, unless it recalls them or its set matches them |
| `Answers.EffectAnswers` | src/traqula/query.rs:1642-1726 | in effect: exactly the rows that answer on the target, and on the assertion for a via pattern, of information in effect at the two cuts |
| `Multiplicity.SelectedOnce` | src/traqula/query.rs:1528-1577 | whichever way a pattern reads, it selects each posit with each binding once |
| `Multiplicity.ScanRowsCount` | src/traqula/query.rs:1480-1597 | a plain or as-of pattern answers a row exactly as often as there are posits in its snapshot that give it |
| `Evaluator.StructuralScan` | src/traqula/query.rs:1528-1549 | the scan yields, with every one of their structural matches under the input and nothing else, exactly the posits whose time is the cutoff or whose interval ends at or before the cutoff's start; an uncut scan yields all of them |
| `Evaluator.ReduceMatches` | src/traqula/query.rs:2248-2270 | the reduction equals the quadratic one by appearance set and posit time |
| `Evaluator.JoinInput` | src/traqula/query.rs:1588-1594 | rebinding the input on a row is the join of input and row |
| `Evaluator.SelectRows` | src/traqula/query.rs:1500-1577 | the rows before the final join are those of the declared relation, for every access path; failure happens exactly at a stray posit under bitmap access when values compare |
| `Evaluator.EvaluateEvidence` | src/traqula/query.rs:1684-1723 | one effective assertion contributes its target and, with a via pattern, its envelope |
| `Evaluator.EvaluateEffect` | src/traqula/query.rs:1642-1726 | an in-effect pattern returns its declared relation over the resolved slice, and succeeds whenever its cutoffs resolve, the evidence is well formed and within the limits, and types compare |
| `Evaluator.EvaluatePattern` | src/traqula/query.rs:1480-1597 | any result is the pattern's relation, families included, whatever the access path; a well-typed comparable scan fails exactly when bitmap access meets a stray posit variable |
| `Evaluator.RunBranch` | src/traqula/query.rs:391-419 | the loops return the composition of the patterns' relations, families included, whatever access path each pattern uses; a well-typed branch of full scans never fails |
| `Evaluator.RunBranches` | src/traqula/query.rs:391-419 | a union returns the rows of its branches one after another, restricted to the names they share: a row is answered exactly when some branch has a row that says the same of those names |
| `Evaluator.BlockHasMatch` | src/traqula/query.rs:2272-2301 | a negated block is found exactly when its run from the outer binding is non-empty |
| `Crc.Crc32c` | src/storage.rs:1618-1631 | the loop computes the reflected CRC-32C (section 12.1 of RFC 3720) of the bytes |
| `Crc.CheckValue` | src/storage.rs:1618-1631 | the checksum of the nine digits 123456789 is 0xe3069283, the check value of CRC-32C |
| `Crc.ShiftsInjective` | src/storage.rs:1621-1628 | each step of the register is invertible |
| `Crc.FourBytesInjective` | src/storage.rs:1618-1631 | four bytes enter the register bijectively |
| `Crc.BurstsAreDetected` | src/storage.rs:1618-1631 | equal-length strings that differ, and only within four consecutive bytes, never share a checksum |
| `Encoding.FixedWidthRoundTrip` | src/storage.rs:1647-1677 | a number written in a fixed width reads back with the bytes after it |
| `Encoding.FixedWidthCanonical` | src/storage.rs:1647-1677 | what reads as a number is how that number is written |
| `Encoding.EncodeUleb128` | src/storage.rs:1556-1568 | the encoding loop emits the canonical ULEB128 (section 7.6 of DWARF 4) |
| `Encoding.UlebBijection` | src/storage.rs:1556-1588 | canonical ULEB128 is a bijection: bytes decode to a 64-bit number exactly when they are its encoding |
| `Encoding.DecodeUleb128` | src/storage.rs:1570-1588 | the slice decoder equals the specification, with the same bytes consumed |
| `Encoding.ReadUleb128` | src/storage.rs:1590-1616 | the streaming decoder equals the same specification and keeps the raw bytes it consumed |
| `Encoding.BlobBijection` | src/storage.rs:1525-1554 | a length-prefixed string reads back exactly when it was written so |
| `Encoding.TwosComplement` | src/storage.rs:1671-1673 | signed fixed-width numbers read back |
| `WireFormat.UlebBytes` | src/storage.rs:1967-1973 | 624485 is written as the three bytes of the DWARF example, low group first |
| `WireFormat.LittleBytes` | src/storage.rs:1647-1677 | fixed-width numbers are written with the low byte first |
| `WireFormat.SignedBytes` | src/storage.rs:1671-1673 | negative years are written in two's complement |
| `Manifests.HeaderVerifiesExactly` | src/storage.rs:1288-1321 | a log is accepted under a store identity exactly when it begins with that store's header |
| `Manifests.ManifestRoundTrip` | src/storage.rs:1180-1248 | bytes read as a manifest exactly when they are what would be written for it |
| `Frames.FrameReads` | src/storage.rs:1323-1345 | a written frame reads back, leaving what follows it |
| `Frames.FrameIsCanonical` | src/storage.rs:1422-1489 | every accepted frame is the frame its record would be written as |
| `Frames.ValidCommitIsTheCommit` | src/storage.rs:1491-1519 | a commit payload validates exactly when it is the one that would be written for the staged batch |
| `Frames.ScanReturnsTheBatches` | src/storage.rs:1357-1420 | scanning the frames of successive appends returns those batches with consecutive record and batch numbers |
| `Frames.AcceptedLogsAreCanonical` | src/storage.rs:1357-1420 | re-encoding what a scan accepts reproduces the committed bytes exactly |
| `Frames.LogBijection` | src/storage.rs:1357-1420 | a scan returns these batches if and only if the bytes are what appending them writes |
| `WireFormat.FrameBytes` | src/storage.rs:1323-1345 | a frame holds the sync word, version, kind, flags, number, length and payload at the offsets of the format, and behind them the checksum of all of them |
| `WireFormat.LargestPayload` | src/storage.rs:1323-1345 | a payload can be framed exactly when it has at most 16777192 bytes, which makes a frame of 16 MiB |
| `WireFormat.CommitBytes` | src/storage.rs:1063-1078 | a commit names the batch, its first and last number and its count, in that order |
| `WireFormat.HeaderBytes` | src/storage.rs:1288-1299 | the log header has the fields of the format at their offsets, and the checksum of the first 60 bytes behind them |
| `WireFormat.ManifestBytes` | src/storage.rs:1180-1197 | a manifest is 95 bytes with one unsealed segment; only its committed length and checksum ever change |
| `LogReading.ReadFrame` | src/storage.rs:1422-1489 | reading through a file that may run past the committed limit accepts a frame exactly when the slice up to the limit does, and returns the same record and end |
| `LogReading.ScanCommitted` | src/storage.rs:1357-1420 | the loop over the file accepts exactly what the scan of the committed bytes accepts, with the same batches and next numbers |
| `Storage.FrameRecords` | src/storage.rs:1043-1062 | records get consecutive numbers and consecutive frames, or the batch is refused before anything is written, for size or for exhausted numbers, whichever is met first |
| `Storage.ValidatePending` | src/storage.rs:1132-1151 | exactly the version-1, flag-free data records pass |
| `Storage.LogStore.OpenInternal` | src/storage.rs:248-324 | opening cuts the log to the committed length, never touches a byte below it, and returns the writer and batches of the scan; no counter of the writer exceeds the committed length |
| `Storage.LogStore.AppendBatch` | src/storage.rs:1025-1119 | for every failure the two files, the writer and the answer are those of the append transition; a poisoned writer refuses; the counters advanced once the manifest is durable cannot run out |
| `CrashSafety.FailuresClose` | src/storage.rs:1025-1119 | an append is acknowledged exactly when nothing fails; a failure once anything may have been written closes the writer, and before that changes neither files nor writer |
| `CrashSafety.OpensExactly` | src/storage.rs:248-324 | the files that open are exactly those that hold some batches, as a writer could have left them |
| `CrashSafety.OpenReadsBack` | src/storage.rs:248-324 | opening files that hold these batches reads back exactly them and cuts the tail |
| `CrashSafety.NextIsSafe` | src/storage.rs:1025-1119 | every append outcome, crash and reopen keeps the store safe |
| `CrashSafety.ReplayReturnsWhatWasKept` | src/storage.rs:248-324 | over whole runs opening succeeds and replays exactly the kept batches in order, and the writer was fail-closed throughout |
| `CrashSafety.SessionKeeps` | src/storage.rs:1025-1119 | within one session at most one batch beyond the acknowledged ones is kept, and only as the last one after a failure |
| `CrashSafety.NextOpenAddsTheSession` | src/storage.rs:248-324 | each open replays what the previous one did, then the acknowledged batches, then at most the one batch whose outcome was uncertain |
| `CrashSafety.CommittedBytesStay` | src/storage.rs:1250-1266 | no event alters a byte below the committed length, and the manifest always names exactly the committed bytes |
| `Utf8.Utf8Bijection` | src/storage.rs:1530-1537 | bytes decode to a text exactly when they are its encoding |
| `WireFormat.TextBytes` | src/storage.rs:1521-1537 | characters of one to four bytes are written as UTF-8 writes them |
| `Decimals.ParseShown` | src/storage.rs:610-627 | what is printed for a number in range parses back to it |
| `Payload.CodecBijection` | src/storage.rs:531-547 | a codec record is accepted exactly when it is the one written for that codec |
| `Payload.RoleBijection` | src/storage.rs:523-529 | a role payload decodes to a role exactly when the role is valid and this is its payload |
| `WireFormat.RoleBytes` | src/storage.rs:523-529 | a role payload is the identity, the reserved flag and the name with its length |
| `WireFormat.CodecBytes` | src/storage.rs:52-82 | codec records carry the identifiers, families and names of the registry |
| `Payload.ZigzagInverts` | src/storage.rs:629-656 | zigzag is undone on all signed 64-bit numbers |
| `Payload.ZigzagCovers` | src/storage.rs:931-961 | every unsigned 64-bit number is the zigzag of the number it decodes to |
| `WireFormat.ZigzagCounts` | src/storage.rs:629-656 | zigzag sends n to 2n, and a negative n to -2n - 1 |
| `Payload.CompactIntegers` | src/storage.rs:610-627 | the compact integer form is chosen exactly for tokens that print some signed 64-bit number |
| `Payload.CompactPercent` | src/storage.rs:610-627 | the compact certainty form is chosen exactly for tokens that print some percentage from -100 to 100 |
| `Payload.LiteralRoundTrip` | src/storage.rs:629-656 | encoding with the selected codec never fails and decodes to the exact token |
| `Payload.TimeRoundTrip` | src/storage.rs:658-688 | every time of every precision reads back |
| `WireFormat.DateTimeBytes` | src/storage.rs:658-688 | times are written as a tag for their precision and the fields it has |
| `WireFormat.MomentBytes` | src/storage.rs:658-688 | a moment is written as year, month, day, hour, minute, second and nanosecond |
| `PositCodec.DecodeAppearances` | src/storage.rs:873-905 | the appearance loop and the check behind it accept exactly ascending, genesis-free lists |
| `PositCodec.SortedCanonical` | src/storage.rs:587-608 | sorting yields a canonical set exactly when no role repeats |
| `PositCodec.PositRoundTrip` | src/storage.rs:873-929 | decoding a posit payload returns the same identity, appearances, token and time for every family and precision |
| `PositCodec.RecordRoundTrip` | src/storage.rs:572-608 | whatever order the appearances arrive in, the record decodes to them sorted, or there is no record because a role repeats |
| `WireFormat.PositBytes` | src/storage.rs:558-608 | a posit payload is the identity, the appearances with the role first, the family, codec and version, the literal and the time |
| `Replay.LogicalReplay.Apply` | src/storage.rs:732-784 | applying a record to the replay maps is the specified step, refusing exactly what it refuses |
| `Replay.LogicalReplay.Batch` | src/storage.rs:725-730 | a batch is applied record by record; the first refusal ends it |
| `Replay.ReplayConsistent` | src/storage.rs:690-812 | whatever log is accepted, role identities, names and propositions come out unique and every reference resolved |
| `ReplayLaws.ReplaysLawfulLogs` | src/storage.rs:690-812 | a log replays if and only if every record is lawful where it stands (new identities, names, propositions and codecs; roles and codecs declared before use) and the whole is complete; the store that comes out lists what was said, in order |
| `Replay.ReplayParses` | src/storage.rs:931-961 | every replayed posit has the meaning its token has in its family |
| `Databases.ThingGenerator.Generate` | src/construct.rs:170-174 | every generated identity is new, one past all before it, and retained, until 64-bit identities run out and the next is the genesis identity |
| `Databases.ThingGenerator.Retain` | src/construct.rs:152-157 | retaining lifts the bound to at least the identity |
| `Databases.ThingGenerator.Release` | src/construct.rs:166-168 | releasing never lowers the bound, so identities are not reused |
| `Keepers.RoleKeepsSound` | src/construct.rs:252-268 | keeping a role under an unused identity preserves unique names and identities and every index |
| `Keepers.AppearanceKeepsSound` | src/construct.rs:1052-1074 | keeping an appearance keeps all seven indexes equal to the relations derived from the kept constructs |
| `Keepers.SetKeepsSound` | src/construct.rs:1082-1100 | keeping a set keeps all seven indexes exact |
| `Keepers.PositKeepsSound` | src/construct.rs:1120-1153 | keeping a posit keeps all seven indexes exact and propositions unique |
| `Databases.Database.KeepRole` | src/construct.rs:934-939 | the keeper's state is the specified step, and the canonical role is returned with whether it existed |
| `Databases.Database.KeepAppearance` | src/construct.rs:1052-1074 | the keeper, the two lookups and the answer are those of the specified step |
| `Databases.Database.KeepAppearanceSet` | src/construct.rs:1082-1100 | the keeper, the appearance lookup and the answer are those of the specified step |
| `Databases.Database.CreateAppearanceSet` | src/construct.rs:1101-1111 | the set is kept sorted by role, or refused with nothing changed exactly when a role repeats |
| `Databases.Database.KeepPosit` | src/construct.rs:1120-1153 | the keeper, the four posit lookups and the answer are those of the specified step |
| `Databases.StageRole` | src/construct.rs:990-1024 | one request is answered by a kept role, one prepared earlier in the command, or a new one; it is refused exactly when it must be |
| `Databases.Database.CreateRoles` | src/construct.rs:979-1050 | all requested roles are kept and logged in one batch under consecutive identities, or nothing is; refusals and durable failures are told apart exactly, and the database stays valid |
| `Databases.StagePosit` | src/construct.rs:1255-1293 | one request draws one identity, released again exactly when the proposition is kept or already prepared |
| `Databases.Database.StagePosits` | src/construct.rs:1255-1293 | every request is answered by a source; what is prepared is new, is what the first request for it asks, and is younger than its Things when those exist |
| `Databases.Database.KeepAssertion` | src/construct.rs:1206-1215 | an assertion's set holds its target in the posit role and its source in the ascertains role and nothing else; it and its two appearances are kept, and nothing else changes |
| `Databases.Database.CommitPosits` | src/construct.rs:1219-1248 | a failed durable append leaves roles, posits and every posit index as they were |
| `Databases.Database.CreateLiteralPositsWithAssertions` | src/construct.rs:1159-1253 | targets and assertions are kept and logged in one batch or not at all; a known proposition is answered by its kept posit, and any other by what the first request for it asks, under the identity drawn for that request; each answered assertion says of its answered target that its positor ascertains it; each error occurs exactly under its condition; new posits are younger than their Things when the caller names only existing ones |
| `Assertions.EnvelopeOfAssertion` | src/construct.rs:1206-1215 | what information in effect reads from an assertion's set is its target and its positor |
| `Assertions.AssertionRoles` | src/construct.rs:1188-1202 | the two roles are the reserved built-in ones named posit and ascertains |
| `Assertions.CarriesCertainty` | src/construct.rs:1159-1253 | an answered assertion carries its certainty if and only if its proposition had no literal of another family before, kept or asked for by an earlier target |
| `Assertions.AssertionsAreEvidence` | src/construct.rs:1159-1253 | at cuts no earlier than its times an assertion is eligible evidence about its target, from its positor, with its certainty, exactly under that condition; otherwise it is malformed there |
| `Assertions.MakeAssertions` | src/construct.rs:1159-1253 | so it is for every assertion of every command |
| `Examples.AssertPreempted` | src/construct.rs:1159-1253 | a command whose assertion is answered by a posit that is no assertion, so that every question at a later cut is refused |
| `Logging.RoleBatchFaithful` | src/storage.rs:519-529 | applying the logged role batch to a faithful replay is faithful to the database after the command |
| `Logging.PositBatchFaithful` | src/storage.rs:558-608 | applying the logged posit batch to a faithful replay is faithful to the database after the command |
| `Logging.DecodesExactlyWhenPersistable` | src/storage.rs:873-905 | an encodable posit decodes exactly when its set is non-empty and free of genesis identities |
| `Restart.Bootstrap` | src/construct.rs:784-806 | a new store holds exactly the built-in roles and logs one bootstrap batch |
| `Restart.EnsureBuiltin` | src/construct.rs:941-977 | a built-in role is kept when missing and refused exactly when its name or identity is otherwise taken |
| `Restart.Restore` | src/construct.rs:808-865 | restoring never fails on a complete replay, rebuilds the same roles and posits with valid indexes, and lifts the generator exactly to the greatest identity they have or mention |
| `Restart.OpenDatabase` | src/construct.rs:751-781 | opening fails when replay does, rebuilds a complete store, and bootstraps a new one exactly when the append is durable; each failure is told apart |
| `Restart.LoggedIsAppendable` | src/storage.rs:1132-1151 | everything a command logs is a data record the store takes |
| `Restart.ReplayRebuildsTheDatabase` | src/storage.rs:690-812 | after any run of commands replay accepts the log if and only if every kept posit has a non-empty, genesis-free set, and then yields the same roles and posits |
| `Restart.IndexesAreDetermined` | src/construct.rs:674-698 | equal roles and posits determine the name, proposition and posit indexes |
| `Restart.Reopen` | src/construct.rs:808-865 | a reopened database has the same roles, posits and posit indexes, and its generator is past every persisted identity |
| `Examples.KeepUnpersistable` | src/construct.rs:1159-1253 | commands that keep the empty set and a posit over it succeed in a new database, and replay refuses the log they leave |
| `Durability.KeepPromise` | src/construct.rs:1159-1253 | after any creation command replaying the log rebuilds the database; the log is the one before with the same constructs, or one batch longer for exactly what the batch records |
| `Durability.MakeFirstPromise` | src/construct.rs:784-806 | the bootstrap of a new store makes the first such promise, exactly when its append is durable |
| `Durability.RenewPromise` | src/construct.rs:751-781 | opening a bootstrapped store whose log replays makes one for that log |
| `Durability.CommandHolds` | src/storage.rs:1025-1119 | an acknowledged, refused or uncertain append keeps the store in step with the database that the command makes of the acknowledged one |
| `Durability.ReopeningFindsTheDatabase` | src/construct.rs:751-781 | whatever commands, failures, crashes and reopens there were since the store was created, opening succeeds and replays the acknowledged database, or the one that the single command of unknown outcome makes of it; replay refuses it exactly when it keeps a posit that cannot be persisted |
| `Times.OnlySentinelsAreEmpty` | src/datatype.rs:413-464 | only the beginning and the end of time denote empty intervals, alone at their ends |
| `Times.BeforeIrreflexive` | src/datatype.rs:466-470 | definitely-before is irreflexive and asymmetric |
| `Times.BeforeTransitive` | src/datatype.rs:466-470 | definitely-before is transitive |
| `Times.BeforeIsIntervalOrder` | src/datatype.rs:466-470 | there are no two incomparable two-chains |
| `Times.DistinctTimesCompareOneWay` | src/datatype.rs:466-506 | distinct times satisfy exactly one of before, after and overlaps |
| `Times.YearContainsItsMonths` | src/datatype.rs:508-518 | a year contains a month exactly when the month is its own, up to both 32-bit limits |
| `Times.DaysCompareAsDates` | src/datatype.rs:445-470 | days are definitely before one another exactly as their dates are |
| `Times.MomentsCompareAsInstants` | src/datatype.rs:453-470 | moments are definitely before one another exactly as their instants are, except that the last nanosecond before a leap second overlaps it |
| `Times.LeapSecondOverlaps` | src/datatype.rs:453-506 | the exception is real: 23:59:59.999999999 overlaps the leap second behind it |
| `Times.YearsAndMonthsCompareAsNumbers` | src/datatype.rs:425-470 | years, and months, are definitely before one another exactly as their numbers are |
| `Times.DayContainsItsMoments` | src/datatype.rs:445-518 | a day contains exactly its own moments |
| `Times.MonthContainsItsDays` | src/datatype.rs:425-518 | a month, and a year, contains exactly its own days, except the last date there is |
| `Times.SentinelsBound` | src/datatype.rs:415-424 | every other time lies definitely between the two sentinels |
| `Times.AtOrBeforeMeans` | src/datatype.rs:478-480 | definitely at or before is being equal, or over when the other starts; it is antisymmetric |
| `Times.WitnessSuffices` | src/datatype.rs:466-470 | a member with the greatest start dominates whatever any member dominates, sentinels included |
| `Temporal.Frontier.Observe` | src/datatype/temporal.rs:38-52 | the frontier moves exactly to later starts, at one comparison |
| `Temporal.Frontier.Dominates` | src/datatype/temporal.rs:54-62 | the frontier answers definitely-before with one comparison |
| `Temporal.RetainMaximal` | src/datatype/temporal.rs:66-91 | one group is reduced to exactly its maxima, in order, with 2(n - 1) comparisons; it succeeds exactly when the callback admits the work |
| `Temporal.GroupRows` | src/datatype/temporal.rs:103-125 | the first pass finds every group and its greatest start |
| `Temporal.KeepMaxima` | src/datatype/temporal.rs:127-135 | the second pass keeps exactly the undominated rows |
| `Temporal.RetainMaximalByKey` | src/datatype/temporal.rs:97-136 | the linear reduction returns exactly the rows with no same-group row definitely after them, in input order with duplicates, with 2(n - groups) comparisons; any callback failure yields no result |
| `Effect.ReadCandidate` | src/effect.rs:190-252 | a candidate is skipped, eligible or an error exactly as classified by its envelope, certainty, target and the two cuts |
| `Effect.CollectEligible` | src/effect.rs:188-252 | the eligible rows are exactly the evidence among the candidates: an assertion whose set is a posit appearance of its target and an ascertains appearance of its positor, with its percentage, at or before the assertion cut, and a target at or before the appearance cut |
| `Effect.EligibleMeans` | src/effect.rs:188-252 | without the classification: a row is eligible if and only if its assertion is a candidate and it is such evidence |
| `Effect.RefusedMeans` | src/effect.rs:197-232 | the candidates are refused exactly when one that was made by the assertion cut has an exact envelope and no certainty, or a target that is not kept |
| `Effect.CandidatesMean` | src/effect.rs:351-371 | the candidates are the posits whose set has both envelope roles |
| `Effect.EffectMeans` | src/effect.rs:188-312 | what a resolution yields is exactly the evidence that stands at the cuts: not zero, not retracted, its target and then its assertion unsurpassed |
| `Effect.CollectRetractions` | src/effect.rs:262-277 | each source and target keeps the greatest-starting zero-certainty assertion, at one comparison for each repetition; it succeeds exactly when that work is admitted |
| `Effect.TopRetractionDecides` | src/effect.rs:279-292 | the greatest-starting retraction alone decides whether a row is retracted |
| `Effect.DropRetracted` | src/effect.rs:279-292 | exactly the rows that stand against every retraction remain, at one comparison for each row whose source and target have one |
| `Effect.SelectEffective` | src/effect.rs:262-312 | the filter and the two reductions give exactly the effective rows, with an exact number of comparisons, at most five an eligible row; they succeed exactly when the meter admits that work |
| `Effect.ReductionsAreEffective` | src/effect.rs:295-312 | two successive reductions equal the declarative selection: maximal target time per source and set, then maximal assertion time per source, set and value |
| `Effect.Resolve` | src/effect.rs:164-349 | information in effect is the declarative selection of the eligible rows with exact counters, comparisons included, and is produced exactly when candidates are well formed and the limits admit the work |
| `Effect.SourceLocality` | src/effect.rs:262-312 | the effective rows of a source are what its own eligible rows alone resolve to |
| `Effect.SourceOfPart` | src/effect.rs:164-349 | restricting the candidates to one source's assertions resolves to the same rows of that source |
| `Effect.EffectiveIsStable` | src/effect.rs:262-312 | resolving only the effective rows returns them unchanged |
| `Terrain.BuildFrameWork` | src/terrain.rs:690-766 | a frame says exactly what its distinct sets say, and is built if and only if the sets are within the limits |
| `Terrain.ProfileMask` | src/terrain.rs:835-848 | a mask holds the bit of exactly the projected roles the Thing has |
| `Terrain.AssignProfiles` | src/terrain.rs:828-851 | every endpoint Thing gets its profile and nothing else changes |
| `Terrain.CountPopulations` | src/terrain.rs:944-951 | populations count the Things of each profile and add up to all of them |
| `Terrain.SupersetSums` | src/terrain.rs:952-963 | the in-place double loop leaves at each mask the number of Things whose profile contains it, and no addition overflows |
| `Terrain.SupportMeaning` | src/terrain.rs:944-963 | a mask's support counts the endpoint Things having every projected role of the mask |
| `Terrain.SupportIsAntitone` | src/terrain.rs:944-963 | a larger mask never has more support |
| `Terrain.FinishProfiles` | src/terrain.rs:944-1009 | for built and profiled frames the population check cannot fail, and each profile reports its population and support |
| `Terrain.TallySet` | src/terrain.rs:1059-1082 | tallying a set never meets a missing role or profile, and overflows only past 64 bits of participations |
| `Terrain.ThingsPartition` | src/terrain.rs:1115-1139 | the cells of a role partition its distinct Things |
| `Terrain.UsesPartition` | src/terrain.rs:1115-1139 | the cells of a role divide its participations |
| `Terrain.Reconciles` | src/terrain.rs:1115-1139 | allocations always reconcile with their role's totals |
| `Terrain.ReconcileRole` | src/terrain.rs:1115-1139 | the reconciliation check never fails |
| `Terrain.BuildRelationship` | src/terrain.rs:1048-1152 | a relationship reports the exact totals by role and by role and profile; it is refused only past the allocation limit or past 64-bit counts |
| `Terrain.EverySetParticipates` | src/terrain.rs:1057-1068 | each set of a relationship plays each of its roles once |
| `Exports.FamiliesTravel` | src/maintenance.rs:726-747 | a family name parses to a family exactly when it names it |
| `Exports.TimesTravel` | src/maintenance.rs:749-812 | a logical time is accepted as a time exactly when the time is written so |
| `WireFormat.FamilyNames` | src/maintenance.rs:726-747 | the six families have the names of the export format |
| `WireFormat.ExportedPosit` | src/maintenance.rs:179-253 | an exported posit names each role as a role and each Thing as a Thing |
| `Exports.ReadExport` | src/maintenance.rs:390-486 | reading returns the store with sorted sets, or nothing exactly when a record is misplaced, foreign or malformed or validation refuses the whole |
| `Exports.ExportReadsBack` | src/maintenance.rs:179-253 | reading what was written gives back the same roles and posits |
| `Exports.AcceptedIsExport` | src/maintenance.rs:390-486 | what reading accepts with sorted sets is, record for record, the export of what it returns |
| `Transfer.ValidateImported` | src/maintenance.rs:488-546 | validation accepts exactly the importable stores |
| `Transfer.BuildIdentityRemap` | src/maintenance.rs:548-596 | the remap is total, injective and order-preserving on the foreign identities, fixes the five built-in roles and sends no other identity to itself or to a built-in; it passes over no identity but one that would have been its own image; it fails only when 64-bit identities run out |
| `Transfer.ImagesDiffer` | src/maintenance.rs:300-313 | different propositions stay different under the remap |
| `Transfer.TransformPositsInBatches` | src/maintenance.rs:298-322 | every posit is transformed once, in order, in batches of at most 1024 |
| `Transfer.ImportReplays` | src/maintenance.rs:325-330 | replaying what an import wrote gives exactly the transformed roles and posits |
| `Transfer.ImportRefused` | src/maintenance.rs:325-330 | replay refuses what an import wrote when a role name is empty or not in canonical form, which validation lets through |
| `Examples.NamelessStoreIsImportable` | src/maintenance.rs:488-546 | validation accepts a concrete store with an empty role name |
| `Examples.ImportNameless` | src/maintenance.rs:325-330 | importing that store fails, because replay refuses what was written |
| `Transfer.ImportStore` | src/maintenance.rs:255-337 | an import is isomorphic to its export under the remap and replays to it; the final comparison never fails, and a validated import fails only on a non-canonical name or exhausted identities |
| `Transfer.ExportStore` | src/maintenance.rs:179-253 | an export lists exactly the replayed roles and posits, each by ascending identity |
| `Transfer.ExportsImport` | src/maintenance.rs:179-253 | an export of a store that replays is importable if and only if the store was bootstrapped; its names are canonical and its sets sorted |
| `Transfer.NewStoreIsNotImportable` | src/maintenance.rs:488-546 | a store to which nothing was ever appended replays and exports, and validation refuses the export |
| `Budget.State.Work` | src/traqula/budget.rs:48-64 | work is charged exactly when the whole charge stays within the limit |
| `Budget.Reserve` | src/traqula/budget.rs:66-78 | a reservation is granted exactly when it fits, and a refusal reserves nothing |
| `Budget.Reservation.Resize` | src/traqula/budget.rs:102-120 | a resize is granted exactly when the total stays within the limit, and lifts the peak to the new total where that is higher; a refusal changes neither counter, peak nor reservation |
| `Budget.Reservation.Grow` | src/traqula/budget.rs:122-139 | growing is a resize by the sum |
| `Budget.Reservation.Release` | src/traqula/budget.rs:141-146 | releasing gives back exactly what is named |
| `Budget.Reservation.Drop` | src/traqula/budget.rs:149-156 | dropping gives back all a reservation holds |
| `Budget.RunsStayWithinTheLimit` | src/traqula/budget.rs:66-156 | over any run of reservations, resizes, growths, pushes, releases and drops the total stays within the limit, and no slot outlives its reservation |
| `Budget.PeakIsTheHighest` | src/traqula/budget.rs:102-120 | after any run the peak is the most bytes held at any moment of it, midway through a push included, and zero when nothing ever was |
| `Budget.OthersStay` | src/traqula/budget.rs:102-156 | no operation touches the bytes or the life of another reservation |
| `Budget.Perform` | src/traqula/budget.rs:66-156 | performing an operation on live reservations of one state takes the ledger exactly its step, and leaves all live reservations valid in slots of their own |
| `Budget.PerformAll` | src/traqula/budget.rs:66-156 | performing any list of operations takes the ledger through the run it stands for; when nothing is held the counter is zero |
| `Budget.NothingIsLeft` | src/traqula/budget.rs:149-156 | after any run, once every reservation is dropped the counter is back at zero |
| `Budget.BudgetVec.Push` | src/traqula/budget.rs:224-253 | a push appends and reserves capacity and payload, or leaves the values alone; it is granted exactly when both its resizes are, and the ledger takes exactly that step |
| `Budget.BudgetIntoIter.Next` | src/traqula/budget.rs:284-296 | taking a value gives its payload back, and underflows exactly when more is given back than held; no other slot of the ledger changes |
| `Budget.BudgetIntoIter.Drain` | src/traqula/budget.rs:284-296 | draining underflows exactly when the payload exceeds what is reserved; no other slot of the ledger changes |
| `Budget.DrainCondition` | src/traqula/budget.rs:195-296 | a vector drains without underflow if and only if its payload never saturated 64 bits, which any limit below the largest ensures |
| `Budget.SaturateAndIterate` | src/traqula/budget.rs:224-296 | pushing two values of 2^63 bytes under the largest limit and iterating the vector underflows |
| `Budget.IterateVector` | src/traqula/budget.rs:298-307 | iterating any valid vector to its end succeeds exactly under that condition, and then ends its reservation and changes no other |

## Left out

- LogReading.ScanCommitted: hands over all batches at the end; the code hands each batch to a callback as its commit is read.
- Storage.LogStore.OpenInternal: creation of a new store directory is not modelled, and runs start after it.
- Effect.Resolve: the final sort of the slice, its share of the work, and the per-query cache of slices are left out; rows come in candidate order.
- Evaluator.ReduceMatches: the callback of the reduction never refuses here; refusal is proved for the reduction itself.
- Evaluator.RunBranch: predicates, projection, ordering and limits after the joins are not modelled, nor the work each row is charged.
- Evaluation.CollectPostings: postings are intersected in the order they are found; the code first sorts them by size.
- FamilyOrder.ComparisonDependsOnOrder: states the comparison with one literal; ordering over a whole result is not modelled.
- Terrain.BuildFrameWork: counts of posits, roles and incidences and their checked additions are left out.
- Terrain.BuildRelationship: identifiers of roles, profiles and signatures are numbers and lists, not strings; posit counts and the loop over signatures are left out.
- Terrain.FinishProfiles: the sort of isopleths and the supports of single roles are left out.
- Databases.ThingGenerator.Generate: the increment wraps as in a build without overflow checks; with them it panics instead.
- Databases.Database.CreateRoles: room for the identities and canonical names shorter than 2^64 bytes are required.
- Databases.Database.CreateLiteralPositsWithAssertions: requires sets already kept, literals of their family and room for the identities, as the one caller ensures; record-encoding errors do not arise then.
- Restart.Reopen: identities that were generated but never persisted are not seen by the reopened generator, as in the code.
- Transfer.ImportStore: durable append failures, the second inspection and the remap document are left out; both sides of the final comparison are in written order instead of sorted.
- Exports.ReadExport: lines are already parsed records; JSON, line length limits and empty lines are not modelled.
- Transfer.BuildIdentityRemap: the converse of exhaustion is not stated, since it needs 2^63 identities.
- Budget.BudgetVec.Push: growth of a vector by allocation is a parameter that may fail; building from a vector and extending repeat it.
- Budget.PerformAll: a push stands there for its two resizes, and taking a value for its release; BudgetVec.Push, BudgetIntoIter.Next and Drain state that correspondence.
- Query text, its grammar and parse functions, and domain validation of parsed queries.
- The planner and pipeline parts of the query engine, top-k and streaming.
- The in-memory backend, read-only snapshots, backups and inspection of a store.
- Terrain catalogues and projection choice, captures of a database, deadlines.
- Result sets, the Python and web bindings, the servers and the command line.
- Locks, threads, deadlines, real files, paths and generated store identifiers.
