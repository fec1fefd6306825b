/** The program's entry point: validate the command line, then report the slowest tests. */
module MeasureTestProgram {
  import opened Optional
  import opened Arguments
  import opened SlowTests

  /** What the program writes to the console: an error text, or the report lines as (Time, Name). */
  datatype Output = Message(text: string) | Report(slowest: seq<TestRecord>)

  /**
   * One run of the program. `fileExists` is the file system's existence check and
   * `testCasesIn(path)` the `test-case` elements of the XML document stored at `path`,
   * in document order; the assembly's name and version are given.
   */
  method Run(commandLineArgs: seq<string>, fileExists: string -> bool,
             assemblyName: string, assemblyVersion: string,
             testCasesIn: string -> seq<TestCaseElement>) returns (output: Output)
    ensures |commandLineArgs| == 0 ==> output == Message(UsageMessage(assemblyName, assemblyVersion))
    ensures |commandLineArgs| >= 1 && !fileExists(commandLineArgs[0]) ==>
              output == Message(MissingFileMessage(commandLineArgs[0]))
    ensures |commandLineArgs| >= 1 && fileExists(commandLineArgs[0]) ==>
              output == Report(SlowestTests(testCasesIn(commandLineArgs[0])))
  {
    var args := new ProgramArgs(commandLineArgs, fileExists, assemblyName, assemblyVersion);
    if !args.AreValid {
      return Message(args.Errors);
    }
    var path := args.TestResultsFile.value;
    output := Report(SlowestTests(testCasesIn(path)));
  }
}
