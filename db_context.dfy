/**
 * The before-suite hook in its inline form: it reads the database settings
 * straight from the suite's `parameters`, checks them, detects the platform
 * and then drops and re-imports the testing database. Each step is a
 * precondition for the next.
 */
module DbContext {
  import opened Outcomes
  import opened Php
  import opened Shell
  import opened ProjectRoot

  const CONFIG_PARAMETERS := "parameters"
  const CONFIG_IMPORT_TESTING_DATABASE := "importTestingDatabase"
  const CONFIG_PATH_TO_SQL_DUMP := "pathToSqlDump"
  const CONFIG_DATABASE_NAME := "databaseName"

  const PLATFORM_MAGENTO_ONE := "magento"

  const PARAMETERS_MISSING := "There must be a parameters section of behat.yml containing your database settings."

  function MissingParameter(parameter: string): string {
    "You must set '" + parameter + "' within the database settings in behat.yml."
  }

  function DumpNotReadable(path: string): string {
    "The provided SQL dump '" + path + "' is not readable."
  }

  function UseTestingDatabase(databaseName: string): string {
    "You need to configure Magento to use the testing database '" + databaseName + "'"
  }

  function AssertParametersSectionExists(suite: Suite): (r: Outcome)
    ensures r.Pass? <==> CONFIG_PARAMETERS in suite
    ensures r.Fail? ==> r.error == InvalidArgument(PARAMETERS_MISSING)
  {
    if CONFIG_PARAMETERS in suite then Pass else Fail(InvalidArgument(PARAMETERS_MISSING))
  }

  /** The import flag: true when unset or null, otherwise the `(bool)` cast of the configured value. */
  function ShouldImportTestingDatabase(parameters: Value): (r: bool)
    ensures !Isset(parameters, CONFIG_IMPORT_TESTING_DATABASE) ==> r
    ensures Isset(parameters, CONFIG_IMPORT_TESTING_DATABASE) ==>
      r == ToBool(parameters.entries[CONFIG_IMPORT_TESTING_DATABASE])
  {
    if Isset(parameters, CONFIG_IMPORT_TESTING_DATABASE) then ToBool(Index(parameters, CONFIG_IMPORT_TESTING_DATABASE))
    else true
  }

  /** A required key must be set to something other than null. */
  function AssertExists(parameters: Value, parameter: string): (r: Outcome)
    ensures r.Pass? <==> parameters.Dict? && parameter in parameters.entries && parameters.entries[parameter] != Null
    ensures r.Fail? ==> r.error == InvalidArgument(MissingParameter(parameter))
  {
    if Isset(parameters, parameter) then Pass else Fail(InvalidArgument(MissingParameter(parameter)))
  }

  /** The parameters must be an array; `databaseName` is checked before `pathToSqlDump`. */
  function AssertRequiredDatabaseParametersSet(parameters: Value): (r: Outcome)
    ensures r.Pass? <==> Isset(parameters, CONFIG_DATABASE_NAME) && Isset(parameters, CONFIG_PATH_TO_SQL_DUMP)
    ensures !IsArray(parameters) ==> r == Fail(ArrayExpected)
    ensures IsArray(parameters) && !Isset(parameters, CONFIG_DATABASE_NAME) ==>
      r == Fail(InvalidArgument(MissingParameter(CONFIG_DATABASE_NAME)))
    ensures IsArray(parameters) && Isset(parameters, CONFIG_DATABASE_NAME) && !Isset(parameters, CONFIG_PATH_TO_SQL_DUMP) ==>
      r == Fail(InvalidArgument(MissingParameter(CONFIG_PATH_TO_SQL_DUMP)))
  {
    if !IsArray(parameters) then Fail(ArrayExpected)
    else
      match AssertExists(parameters, CONFIG_DATABASE_NAME)
      case Fail(e) => Fail(e)
      case Pass => AssertExists(parameters, CONFIG_PATH_TO_SQL_DUMP)
  }

  function AssertSqlDumpIsReadable(d: Disk, path: string): (r: Outcome)
    ensures r.Pass? <==> path in d.readable
    ensures r.Fail? ==> r.error == InvalidArgument(DumpNotReadable(path))
  {
    if path in d.readable then Pass else Fail(InvalidArgument(DumpNotReadable(path)))
  }

  method DropDatabase(runner: Runner, name: string) returns (r: Outcome)
    modifies runner
    ensures runner.log == old(runner.log) + [Drop(name)]
    ensures r == Completed(runner.respond(Render(Drop(name))), DropFailed(name))
  {
    var res := runner.Exec(Drop(name));
    r := Pass;
    if res.status != 0 {
      r := Fail(Runtime(DropFailed(name) + Implode(res.lines)));
    }
  }

  method ImportDatabase(runner: Runner, path: string, name: string) returns (r: Outcome)
    modifies runner
    ensures runner.log == old(runner.log) + [Import(path, name)]
    ensures r == Completed(runner.respond(Render(Import(path, name))), ImportFailed(name))
  {
    var res := runner.Exec(Import(path, name));
    r := Pass;
    if res.status != 0 {
      r := Fail(Runtime(ImportFailed(name) + Implode(res.lines)));
    }
  }

  /** The fresh-import step: nothing when the flag is off; else readability, drop, import, each stopping the rest on failure. */
  function ImportFresh(parameters: Value, d: Disk, respond: string -> ExecResult): Run {
    if !ShouldImportTestingDatabase(parameters) then Run(Pass, [])
    else
      var path := ToString(Index(parameters, CONFIG_PATH_TO_SQL_DUMP));
      var name := ToString(Index(parameters, CONFIG_DATABASE_NAME));
      match AssertSqlDumpIsReadable(d, path)
      case Fail(e) => Run(Fail(e), [])
      case Pass =>
        match Completed(respond(Render(Drop(name))), DropFailed(name))
        case Fail(e) => Run(Fail(e), [Drop(name)])
        case Pass => Run(Completed(respond(Render(Import(path, name))), ImportFailed(name)), [Drop(name), Import(path, name)])
  }

  method ImportFreshTestingDatabase(runner: Runner, parameters: Value, d: Disk) returns (r: Outcome)
    modifies runner
    ensures runner.log == old(runner.log) + ImportFresh(parameters, d, runner.respond).issued
    ensures r == ImportFresh(parameters, d, runner.respond).outcome
  {
    if !ShouldImportTestingDatabase(parameters) {
      return Pass;
    }
    var pathToSqlDump := ToString(Index(parameters, CONFIG_PATH_TO_SQL_DUMP));
    var databaseName := ToString(Index(parameters, CONFIG_DATABASE_NAME));
    r := AssertSqlDumpIsReadable(d, pathToSqlDump);
    if r.Fail? {
      return;
    }
    r := DropDatabase(runner, databaseName);
    if r.Fail? {
      return;
    }
    r := ImportDatabase(runner, pathToSqlDump, databaseName);
  }

  /** `haystack` contains `needle` as a contiguous piece. */
  predicate Contains(haystack: string, needle: string)
    decreases |haystack|
  {
    needle <= haystack || (haystack != [] && Contains(haystack[1..], needle))
  }

  /**
   * The Magento 1 check of this hook: the raw local.xml text must contain
   * the dbname element with the testing database name in a CDATA section.
   */
  function AssertMagentoOneUsingTestingDatabase(d: Disk, projectRoot: string, databaseName: string): (r: Outcome)
    ensures r.Pass? <==> Contains(LocalXmlAt(d, projectRoot + LOCAL_XML).text, "<dbname><![CDATA[" + databaseName + "]]></dbname>")
    ensures r.Fail? ==> r.error == InvalidArgument(UseTestingDatabase(databaseName))
  {
    if Contains(LocalXmlAt(d, projectRoot + LOCAL_XML).text, "<dbname><![CDATA[" + databaseName + "]]></dbname>") then Pass
    else Fail(InvalidArgument(UseTestingDatabase(databaseName)))
  }

  /** Walks up from the hook's directory; a Magento 1 root comes back with the platform still null. */
  method DetectPlatform(d: Disk) returns (r: Result<Detected>)
    ensures r.Success? <==> FindRoot(d.files, Levels(d)).Success?
    ensures r.Success? ==> r.value == Detected(None, FindRoot(d.files, Levels(d)).value)
    ensures r.Failure? ==> r.error == FindRoot(d.files, Levels(d)).error
  {
    var platform: Option<string> := None;
    var root := Walk(d);
    r := Tagged(root, platform);
  }

  /** The outcome of the detection and the platform switch. */
  function TestingDatabaseCheck(parameters: Value, d: Disk): Outcome {
    match Tagged(FindRoot(d.files, Levels(d)), None)
    case Failure(e) => Fail(e)
    case Success(Detected(platform, projectRoot)) =>
      if platform == Some(PLATFORM_MAGENTO_ONE) then
        AssertMagentoOneUsingTestingDatabase(d, projectRoot, ToString(Index(parameters, CONFIG_DATABASE_NAME)))
      else Pass
  }

  /**
   * Detection, then the platform switch. Since the detected platform is
   * null, the Magento 1 case never matches: the check passes exactly when
   * the walk finds a root, and fails with the walk's error otherwise.
   */
  method AssertTestingDatabaseIsBeingUsed(parameters: Value, d: Disk) returns (r: Outcome)
    ensures r == TestingDatabaseCheck(parameters, d)
    ensures r.Pass? <==> FindRoot(d.files, Levels(d)).Success?
    ensures r.Fail? ==> r.error == FindRoot(d.files, Levels(d)).error
  {
    var databaseName := ToString(Index(parameters, CONFIG_DATABASE_NAME));
    var detected := DetectPlatform(d);
    match detected
    case Failure(e) =>
      r := Fail(e);
    case Success(Detected(platform, projectRoot)) =>
      if platform == Some(PLATFORM_MAGENTO_ONE) {
        r := AssertMagentoOneUsingTestingDatabase(d, projectRoot, databaseName);
      } else {
        r := Pass;
      }
  }

  /** The whole hook: parameters section, required keys, platform check, fresh import. */
  function Setup(suite: Suite, d: Disk, respond: string -> ExecResult): Run {
    match AssertParametersSectionExists(suite)
    case Fail(e) => Run(Fail(e), [])
    case Pass =>
      var parameters := suite[CONFIG_PARAMETERS];
      match AssertRequiredDatabaseParametersSet(parameters)
      case Fail(e) => Run(Fail(e), [])
      case Pass =>
        match TestingDatabaseCheck(parameters, d)
        case Fail(e) => Run(Fail(e), [])
        case Pass => ImportFresh(parameters, d, respond)
  }

  /** `@BeforeSuite`: runs the steps in order and stops at the first that fails. */
  method SetupTestingDatabase(runner: Runner, suite: Suite, d: Disk) returns (r: Outcome)
    modifies runner
    ensures runner.log == old(runner.log) + Setup(suite, d, runner.respond).issued
    ensures r == Setup(suite, d, runner.respond).outcome
  {
    r := AssertParametersSectionExists(suite);
    if r.Fail? {
      return;
    }
    var parameters := suite[CONFIG_PARAMETERS];
    r := AssertRequiredDatabaseParametersSet(parameters);
    if r.Fail? {
      return;
    }
    r := AssertTestingDatabaseIsBeingUsed(parameters, d);
    if r.Fail? {
      return;
    }
    r := ImportFreshTestingDatabase(runner, parameters, d);
  }

  /** Without a `parameters` setting the hook fails before reading any parameter or issuing any command. */
  lemma MissingParametersStopsEverything(suite: Suite, d: Disk, respond: string -> ExecResult)
    requires CONFIG_PARAMETERS !in suite
    ensures Setup(suite, d, respond) == Run(Fail(InvalidArgument(PARAMETERS_MISSING)), [])
  {
  }

  /**
   * A command is issued only after every check has passed: the parameters
   * exist, both required keys are set, the walk found a root, the import flag
   * is on and the dump is readable. What is issued is the drop, then at most
   * the import of the same database.
   */
  lemma CommandsOnlyAfterEveryCheck(suite: Suite, d: Disk, respond: string -> ExecResult)
    requires Setup(suite, d, respond).issued != []
    ensures CONFIG_PARAMETERS in suite
    ensures var p := suite[CONFIG_PARAMETERS];
      var name := ToString(Index(p, CONFIG_DATABASE_NAME));
      var path := ToString(Index(p, CONFIG_PATH_TO_SQL_DUMP));
      && Isset(p, CONFIG_DATABASE_NAME) && Isset(p, CONFIG_PATH_TO_SQL_DUMP)
      && FindRoot(d.files, Levels(d)).Success?
      && ShouldImportTestingDatabase(p)
      && path in d.readable
      && Setup(suite, d, respond).issued in {[Drop(name)], [Drop(name), Import(path, name)]}
  {
  }

  /** With the import flag off, a hook whose checks pass succeeds without issuing any command. */
  lemma NoImportMeansNoCommands(suite: Suite, d: Disk, respond: string -> ExecResult)
    requires CONFIG_PARAMETERS in suite
    requires AssertRequiredDatabaseParametersSet(suite[CONFIG_PARAMETERS]).Pass?
    requires FindRoot(d.files, Levels(d)).Success?
    requires !ShouldImportTestingDatabase(suite[CONFIG_PARAMETERS])
    ensures Setup(suite, d, respond) == Run(Pass, [])
  {
  }

  /**
   * A failed drop ends the step with a runtime error carrying the client's
   * output, and the import is never issued.
   */
  lemma DropFailureStopsImport(parameters: Value, d: Disk, respond: string -> ExecResult)
    requires ShouldImportTestingDatabase(parameters)
    requires ToString(Index(parameters, CONFIG_PATH_TO_SQL_DUMP)) in d.readable
    requires respond(Render(Drop(ToString(Index(parameters, CONFIG_DATABASE_NAME))))).status != 0
    ensures var name := ToString(Index(parameters, CONFIG_DATABASE_NAME));
      ImportFresh(parameters, d, respond) ==
        Run(Fail(Runtime(DropFailed(name) + Implode(respond(Render(Drop(name))).lines))), [Drop(name)])
  {
  }

  /**
   * The Magento 1 guard never runs here: once the walk finds a root, the
   * hook goes on to the fresh import whatever the root's local.xml says,
   * including a local.xml that names another database.
   */
  lemma MagentoGuardNeverRuns(suite: Suite, d: Disk, respond: string -> ExecResult)
    requires CONFIG_PARAMETERS in suite
    requires AssertRequiredDatabaseParametersSet(suite[CONFIG_PARAMETERS]).Pass?
    requires FindRoot(d.files, Levels(d)).Success?
    ensures Setup(suite, d, respond) == ImportFresh(suite[CONFIG_PARAMETERS], d, respond)
  {
  }

  /**
   * When no level up to the end of the walk holds a marker, the hook fails
   * with "Failed finding project root." and issues no command, whatever the
   * import flag says.
   */
  lemma UnmarkedWalkStopsSetup(suite: Suite, d: Disk, respond: string -> ExecResult)
    requires CONFIG_PARAMETERS in suite
    requires AssertRequiredDatabaseParametersSet(suite[CONFIG_PARAMETERS]).Pass?
    requires forall k :: 0 <= k < |Levels(d)| ==> MarkerAt(d.files, Levels(d)[k]) == Unmarked
    ensures Setup(suite, d, respond) == Run(Fail(Runtime(ROOT_NOT_FOUND)), [])
  {
    FindRootIsFirstMarked(d.files, Levels(d));
  }

  /**
   * The database the import targets has just been dropped and is not
   * created again: whatever ran before, the import does not find its
   * database.
   */
  lemma {:induction false} ImportTargetsDroppedDatabase(
    parameters: Value, d: Disk, respond: string -> ExecResult, initial: set<string>, before: seq<Cmd>)
    requires |ImportFresh(parameters, d, respond).issued| == 2
    ensures !ImportsFindTheirDatabase(initial, before + ImportFresh(parameters, d, respond).issued)
  {
    var name := ToString(Index(parameters, CONFIG_DATABASE_NAME));
    var path := ToString(Index(parameters, CONFIG_PATH_TO_SQL_DUMP));
    var log := before + [Drop(name), Import(path, name)];
    assert log == before + ImportFresh(parameters, d, respond).issued;
    var k := |before| + 1;
    assert log[k] == Import(path, name);
    assert log[..k] == before + [Drop(name)];
    assert log[..k][..|log[..k]| - 1] == before;
    assert name !in Databases(initial, log[..k]);
  }
}
