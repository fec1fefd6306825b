/** Validation of the command line of the slow-test report tool. */
module Arguments {
  import opened Optional

  /** The usage text printed when no argument is given: program name, version and usage line. */
  function UsageMessage(assemblyName: string, assemblyVersion: string): string
  {
    assemblyName + " Version " + assemblyVersion + "\nUsage: " + assemblyName + " test-results.xml"
  }

  /** The message printed when the results file cannot be found. */
  function MissingFileMessage(path: string): string
  {
    "Couldn't find file " + path
  }

  /**
   * The error text validation produces for `commandLineArgs`; `fileExists` stands for the
   * file system's existence check. It is empty exactly when the first argument names an
   * existing file.
   */
  function ExpectedErrors(commandLineArgs: seq<string>, fileExists: string -> bool,
                          assemblyName: string, assemblyVersion: string): (r: string)
    ensures r == "" <==> |commandLineArgs| >= 1 && fileExists(commandLineArgs[0])
    ensures |commandLineArgs| == 0 ==> r == UsageMessage(assemblyName, assemblyVersion)
    ensures |commandLineArgs| >= 1 && !fileExists(commandLineArgs[0]) ==>
              r == MissingFileMessage(commandLineArgs[0])
  {
    if |commandLineArgs| < 1 then UsageMessage(assemblyName, assemblyVersion)
    else if !fileExists(commandLineArgs[0]) then MissingFileMessage(commandLineArgs[0])
    else ""
  }

  /** The validated command line: whether analysis may proceed, why not, and which file to read. */
  class ProgramArgs {
    var AreValid: bool
    var Errors: string
    var TestResultsFile: Option<string>

    constructor (commandLineArgs: seq<string>, fileExists: string -> bool,
                 assemblyName: string, assemblyVersion: string)
      ensures Errors == ExpectedErrors(commandLineArgs, fileExists, assemblyName, assemblyVersion)
      ensures AreValid <==> Errors == ""
      ensures AreValid <==> |commandLineArgs| >= 1 && fileExists(commandLineArgs[0])
      ensures TestResultsFile == if |commandLineArgs| < 1 then None else Some(commandLineArgs[0])
    {
      AreValid := false;
      Errors := "";
      TestResultsFile := None;
      new;
      if |commandLineArgs| < 1 {
        Errors := Errors + UsageMessage(assemblyName, assemblyVersion);
      } else {
        TestResultsFile := Some(commandLineArgs[0]);
        if !fileExists(TestResultsFile.value) {
          Errors := Errors + MissingFileMessage(TestResultsFile.value);
        }
      }
      AreValid := |Errors| == 0;
    }
  }

  /** Arguments after the first never change the outcome of validation. */
  lemma ExtraArgumentsIgnored(args1: seq<string>, args2: seq<string>, fileExists: string -> bool,
                              assemblyName: string, assemblyVersion: string)
    requires |args1| >= 1 && |args2| >= 1 && args1[0] == args2[0]
    ensures ExpectedErrors(args1, fileExists, assemblyName, assemblyVersion)
         == ExpectedErrors(args2, fileExists, assemblyName, assemblyVersion)
  {
  }
}
