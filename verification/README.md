# MeasureTest in Dafny

A model of MeasureTest, a small command-line tool that reads a test-run results file in
XML and prints the ten slowest test cases, slowest first, one `<time>\t<name>` line each.

The model has four modules:

- `Optional` (`optional.dfy`): the `Option` datatype that stands for a C# `null`.
- `Arguments` (`program_args.dfy`): command-line validation. `ProgramArgs` is a class
  whose constructor sets `AreValid`, `Errors` and `TestResultsFile` the way the C#
  constructor does. It starts `Errors` empty and appends the usage text or the
  "Couldn't find file" message. `ExpectedErrors` is the function the constructor is
  proved against.
- `SlowTests` (`slow_tests.dfy`): the report query. Each `test-case` element becomes a
  `TestRecord(Name, Time)`. A missing `name` gives `None` and a missing `time` gives 0.
  The records are stable-sorted by `Time`, largest first, by a recursive insertion sort.
  Then `Take` keeps the first ten. Stability is stated with `WithTime(s, t)`, the
  records of `s` whose Time is `t`, in order. A stable descending ordering of `s` is
  sorted and has the same `WithTime(·, t)` as `s` for every `t`.
  `StableDescendingSortUnique` shows that this pins down the result, so it is an
  independent description of the `orderby … descending` of LINQ.
- `ReportScenarios` (`report_scenarios.dfy`): the report on particular inputs. These are
  the documented three-test and twelve-test examples, increasing times in general, and
  untimed test cases.
- `MeasureTestProgram` (`program.dfy`): `Run`, the control flow of `Main`. It validates
  the arguments, returns the error text when they are invalid, and otherwise returns the
  report.

The file system and the XML document are parameters. `fileExists` stands for
`File.Exists`. `testCasesIn(path)` gives the `test-case` elements of the document at
`path`, in document order. The assembly name and version are given strings.

The usage text (MeasureTest/Program.cs:22) names a single results file, but the
validation (lines 24-26) reads only the first argument and ignores any others without
a message. The model does the same.

## Model

| member | source | states |
|---|---|---|
| `Arguments.ProgramArgs.constructor` | MeasureTest/Program.cs:16-33 | `Errors` is the validation text. `AreValid` holds exactly when `Errors` is empty, and exactly when there is a first argument naming an existing file. `TestResultsFile` is unset with no arguments and is the first argument otherwise |
| `Arguments.ExpectedErrors` | MeasureTest/Program.cs:18-32 | the error text is empty exactly when the first argument names an existing file. With no arguments it is `"<name> Version <ver>\nUsage: <name> test-results.xml"`. For a missing file it is `"Couldn't find file " + path`. The two texts are built by `UsageMessage` (the format at line 22) and `MissingFileMessage` (the format at line 29) |
| `Arguments.ExtraArgumentsIgnored` | MeasureTest/Program.cs:24-30 | two argument lists with the same first argument validate identically |
| `SlowTests.ToRecord` | MeasureTest/Program.cs:52-56 | the record's Name is the `name` attribute, or null when absent. Its Time is the `time` attribute, or 0 when absent |
| `SlowTests.Extract` | MeasureTest/Program.cs:51-56 | one record per `test-case` element, in document order, each with that element's name and time (0 when absent) |
| `SlowTests.Insert` | MeasureTest/Program.cs:58-59 | inserting one record into a sequence gives a sequence one longer. It is a step of the sort with no counterpart in the source; what it does is stated by `InsertPermutes`, `InsertWithTime` and `InsertSorted` |
| `SlowTests.SortByTimeDescending` | MeasureTest/Program.cs:58-59 | the result has the input's length. By `SortByTimeDescendingCorrect` and `SortIsTheStableDescendingSort` it is the unique stable descending ordering of its input |
| `SlowTests.InsertPermutes` | MeasureTest/Program.cs:58-59 | inserting a record into a sequence adds exactly that record |
| `SlowTests.InsertWithTime` | MeasureTest/Program.cs:58-59 | insertion places the record ahead of the records of equal Time that are already there, so each tie group keeps input order |
| `SlowTests.InsertSorted` | MeasureTest/Program.cs:58-59 | inserting into a sequence sorted by Time, largest first, keeps it sorted |
| `SlowTests.SortByTimeDescendingCorrect` | MeasureTest/Program.cs:58-59 | the sort is a permutation of its input, sorted by Time non-increasing, and keeps document order among equal Times |
| `SlowTests.StableDescendingSortUnique` | MeasureTest/Program.cs:58-59 | two sequences that are sorted non-increasing and agree, Time by Time, on their records and order are equal |
| `SlowTests.SortIsTheStableDescendingSort` | MeasureTest/Program.cs:58-59 | any stable descending ordering of the records equals the sort's result |
| `SlowTests.Take` | MeasureTest/Program.cs:60 | the result is a prefix of the input, of length `min(|s|, n)` |
| `SlowTests.SlowestTests` | MeasureTest/Program.cs:51-60 | the report has `min(N, 10)` records, is sorted by Time non-increasing, and holds only extracted records, never more copies of one than the document has |
| `SlowTests.SlowestTestsStable` | MeasureTest/Program.cs:51-60 | for every Time, the reported records of that Time are a prefix of the document's records of that Time. Ties keep document order and the earliest are kept |
| `SlowTests.SlowestTestsDropNoSlower` | MeasureTest/Program.cs:58-60 | no record left out of the report has a larger Time than any reported record |
| `SlowTests.TakeDropNoSlower` | MeasureTest/Program.cs:60 | cutting a sorted sequence leaves out nothing slower than what it keeps |
| `ReportScenarios.IncreasingTimesSortReversed` | MeasureTest/Program.cs:58-59 | records whose times strictly increase in document order sort into the reverse order |
| `ReportScenarios.ThreeTestCases` | MeasureTest/Program.cs:51-60 | test cases A (1.0), B (5.25), C (0.1) are reported as B, A, C |
| `ReportScenarios.TwelveIncreasingTimes` | MeasureTest/Program.cs:51-60 | twelve test cases timed 1 to 12 give exactly the ten records timed 12 down to 3, in that order, with their names |
| `ReportScenarios.UntimedTestsComeLast` | MeasureTest/Program.cs:55-60 | when no time is negative, a reported zero-time record (such as an untimed test case) is followed only by zero-time records |
| `MeasureTestProgram.Run` | MeasureTest/Program.cs:38-66 | with no arguments the output is the usage text. With a missing file it is the missing-file text. Otherwise it is the report of the document's test cases |

## Left out

- `File.Exists` (MeasureTest/Program.cs:27) is the parameter `fileExists`, and nothing constrains it. The model does not capture that `File.Exists` is false for the empty path and for directories. A file that exists but cannot be opened crashes the program at line 48; the model does not capture this crash, and `Run` then promises a report. Opening the file with `FileShare.ReadWrite` and disposing the reader (line 48) are not modelled.
- XML parsing and traversal (`XmlTextReader`, `XDocument.Load`, `Descendants`, lines 48-51) are library code. The model takes the traversed `test-case` elements in document order. Malformed XML, which crashes the program, is not modelled.
- `decimal.Parse` (line 55) is not modelled. `time` is given already parsed, so the crash on unparsable text is not modelled. `System.Decimal` is modelled as `real`. Comparison of decimals is by value, so this gives the same order. The scale of a decimal (`1.0` and `1.00`) only affects printing.
- `AttributeValue` (lines 69-73) is not a separate function. Each element carries its `name` and `time` attributes as `Option` fields. `None` is the null that `AttributeValue` returns for an absent attribute.
- The assembly name and version lookup by reflection (line 21) is replaced by two given strings. The version is taken in its printed form.
- Console output (lines 44 and 62-65) is not modelled as text. `Run` returns the error text or the reported records as (Time, Name) pairs. The formatting of a decimal and of a null name is not modelled.
- LINQ's lazy evaluation is not modelled. The query is evaluated eagerly, which has the same result because the whole document is loaded first.
