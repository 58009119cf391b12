/**
 * Extraction and validation of the hook's settings from the suite's
 * `parameters.databaseSettings` block. A `Settings` value exists only when
 * every check has passed.
 */
module Settings {
  import opened Outcomes
  import opened Php

  const SETTING_PARAMETERS := "parameters"
  const SETTING_DATABASE_SETTINGS := "databaseSettings"
  const SETTING_IMPORT_TESTING_DATABASE := "importTestingDatabase"
  const SETTING_PATH_TO_SQL_DUMP := "pathToSqlDump"
  const SETTING_DATABASE_NAME := "databaseName"
  const SETTING_CUSTOM_ASSERTIONS := "customAssertions"

  const SECTION_MISSING := "There must be a parameters section of behat.yml containing your database settings."

  function MissingParameter(parameter: string): string {
    "You must set '" + parameter + "' within the database settings in behat.yml."
  }

  /** The validated settings; the four fields are written once, at construction. */
  datatype Settings = Settings(
    importTestingDatabase: bool,
    pathToSqlDump: Value,
    databaseName: Value,
    customAssertions: Value)
  {
    function ShouldImportTestingDatabase(): bool { importTestingDatabase }
    function GetPathToSqlDump(): Value { pathToSqlDump }
    function GetDatabaseName(): Value { databaseName }
    function GetCustomAssertions(): Value { customAssertions }
  }

  /**
   * The section check. It returns as soon as the suite has a `parameters`
   * setting, without looking inside it; only a suite without one gets past
   * that test, and it then fails, since reading the missing setting gives
   * nothing that holds `databaseSettings`.
   */
  function AssertDatabaseSettingsSectionExists(suite: Suite): (r: Outcome)
    ensures r.Pass? <==> SETTING_PARAMETERS in suite
    ensures r.Fail? ==> r.error == InvalidArgument(SECTION_MISSING)
  {
    if SETTING_PARAMETERS in suite then Pass
    else
      var parameters := Null;
      if Isset(parameters, SETTING_DATABASE_SETTINGS) then Pass
      else Fail(InvalidArgument(SECTION_MISSING))
  }

  /**
   * `parameters.databaseSettings`: the configured block when `parameters`
   * is an array holding that key, null in every other case.
   */
  function ExtractDatabaseSettings(suite: Suite): (r: Value)
    requires SETTING_PARAMETERS in suite
    ensures suite[SETTING_PARAMETERS].Dict? && SETTING_DATABASE_SETTINGS in suite[SETTING_PARAMETERS].entries ==>
      r == suite[SETTING_PARAMETERS].entries[SETTING_DATABASE_SETTINGS]
    ensures !suite[SETTING_PARAMETERS].Dict? || SETTING_DATABASE_SETTINGS !in suite[SETTING_PARAMETERS].entries ==>
      r == Null
  {
    Index(suite[SETTING_PARAMETERS], SETTING_DATABASE_SETTINGS)
  }

  /** The custom assertions: the configured value as it is, or an empty list when unset. */
  function ExtractCustomAssertions(databaseSettings: Value): (r: Value)
    ensures Isset(databaseSettings, SETTING_CUSTOM_ASSERTIONS) ==> r == databaseSettings.entries[SETTING_CUSTOM_ASSERTIONS]
    ensures !Isset(databaseSettings, SETTING_CUSTOM_ASSERTIONS) ==> r == List([])
  {
    if Isset(databaseSettings, SETTING_CUSTOM_ASSERTIONS) then Index(databaseSettings, SETTING_CUSTOM_ASSERTIONS)
    else List([])
  }

  /** The import flag: true when unset or null, otherwise the `(bool)` cast of the configured value. */
  function ExtractImportTestingDatabase(databaseSettings: Value): (r: bool)
    ensures !Isset(databaseSettings, SETTING_IMPORT_TESTING_DATABASE) ==> r
    ensures Isset(databaseSettings, SETTING_IMPORT_TESTING_DATABASE) ==>
      r == ToBool(databaseSettings.entries[SETTING_IMPORT_TESTING_DATABASE])
  {
    if Isset(databaseSettings, SETTING_IMPORT_TESTING_DATABASE) then ToBool(Index(databaseSettings, SETTING_IMPORT_TESTING_DATABASE))
    else true
  }

  /** A required key must be set to something other than null. */
  function AssertParameterExists(databaseSettings: Value, parameter: string): (r: Outcome)
    ensures r.Pass? <==> databaseSettings.Dict? && parameter in databaseSettings.entries && databaseSettings.entries[parameter] != Null
    ensures r.Fail? ==> r.error == InvalidArgument(MissingParameter(parameter))
  {
    if Isset(databaseSettings, parameter) then Pass
    else Fail(InvalidArgument(MissingParameter(parameter)))
  }

  /**
   * The block must be an array (its parameter is declared `array`); then
   * `databaseName` is checked, then `pathToSqlDump`, and the error names the
   * first one missing.
   */
  function AssertRequiredDatabaseParametersExist(databaseSettings: Value): (r: Outcome)
    ensures r.Pass? <==> Isset(databaseSettings, SETTING_DATABASE_NAME) && Isset(databaseSettings, SETTING_PATH_TO_SQL_DUMP)
    ensures !IsArray(databaseSettings) ==> r == Fail(ArrayExpected)
    ensures IsArray(databaseSettings) && !Isset(databaseSettings, SETTING_DATABASE_NAME) ==>
      r == Fail(InvalidArgument(MissingParameter(SETTING_DATABASE_NAME)))
    ensures IsArray(databaseSettings) && Isset(databaseSettings, SETTING_DATABASE_NAME) && !Isset(databaseSettings, SETTING_PATH_TO_SQL_DUMP) ==>
      r == Fail(InvalidArgument(MissingParameter(SETTING_PATH_TO_SQL_DUMP)))
  {
    if !IsArray(databaseSettings) then Fail(ArrayExpected)
    else
      match AssertParameterExists(databaseSettings, SETTING_DATABASE_NAME)
      case Fail(e) => Fail(e)
      case Pass => AssertParameterExists(databaseSettings, SETTING_PATH_TO_SQL_DUMP)
  }

  /**
   * The validated `databaseSettings` block, or the first check that failed:
   * it succeeds exactly when `parameters` is present and the block sets both
   * required keys; without `parameters` the section message is reported,
   * otherwise the error of the required-parameter check.
   */
  function ExtractSettings(suite: Suite): (r: Result<Value>)
    ensures r.Success? <==>
      (&& SETTING_PARAMETERS in suite
       && Isset(ExtractDatabaseSettings(suite), SETTING_DATABASE_NAME)
       && Isset(ExtractDatabaseSettings(suite), SETTING_PATH_TO_SQL_DUMP))
    ensures r.Success? ==> SETTING_PARAMETERS in suite && r.value == ExtractDatabaseSettings(suite)
    ensures SETTING_PARAMETERS !in suite ==> r == Failure(InvalidArgument(SECTION_MISSING))
    ensures SETTING_PARAMETERS in suite && r.Failure? ==>
      r.error == AssertRequiredDatabaseParametersExist(ExtractDatabaseSettings(suite)).error
  {
    match AssertDatabaseSettingsSectionExists(suite)
    case Fail(e) => Failure(e)
    case Pass =>
      var databaseSettings := ExtractDatabaseSettings(suite);
      match AssertRequiredDatabaseParametersExist(databaseSettings)
      case Fail(e) => Failure(e)
      case Pass => Success(databaseSettings)
  }

  /**
   * The constructor. All checks run before any field is set, so it either
   * fails with the same error as `ExtractSettings` or yields settings whose
   * fields all come from the validated block.
   */
  function FromSuite(suite: Suite): (r: Result<Settings>)
    ensures r.Success? <==> ExtractSettings(suite).Success?
    ensures r.Failure? ==> r.error == ExtractSettings(suite).error
  {
    match ExtractSettings(suite)
    case Failure(e) => Failure(e)
    case Success(databaseSettings) =>
      Success(Settings(
        ExtractImportTestingDatabase(databaseSettings),
        Index(databaseSettings, SETTING_PATH_TO_SQL_DUMP),
        Index(databaseSettings, SETTING_DATABASE_NAME),
        ExtractCustomAssertions(databaseSettings)))
  }

  /**
   * The getters return exactly what `parameters.databaseSettings` holds:
   * the two required values as configured (never null), the import flag
   * and the custom assertions with their defaults.
   */
  lemma GettersReturnConfiguredValues(suite: Suite)
    requires FromSuite(suite).Success?
    ensures var s := FromSuite(suite).value;
      var db := Index(suite[SETTING_PARAMETERS], SETTING_DATABASE_SETTINGS);
      && db.Dict?
      && s.GetDatabaseName() == db.entries[SETTING_DATABASE_NAME] != Null
      && s.GetPathToSqlDump() == db.entries[SETTING_PATH_TO_SQL_DUMP] != Null
      && s.ShouldImportTestingDatabase() == ExtractImportTestingDatabase(db)
      && s.GetCustomAssertions() == ExtractCustomAssertions(db)
  {
  }

  /**
   * With a `parameters` setting present the section check passes at once,
   * so a missing or non-array `databaseSettings` block is reported by the
   * `array` type check, never by the section message.
   */
  lemma MissingBlockIsNotReportedAsMissingSection(suite: Suite)
    requires SETTING_PARAMETERS in suite
    requires !IsArray(Index(suite[SETTING_PARAMETERS], SETTING_DATABASE_SETTINGS))
    ensures FromSuite(suite) == Failure(ArrayExpected)
  {
  }

  /** A key holding null counts as missing, exactly as an absent key does. */
  lemma NullCountsAsMissing(databaseSettings: map<string, Value>, parameter: string)
    ensures AssertParameterExists(Dict(databaseSettings[parameter := Null]), parameter) ==
            AssertParameterExists(Dict(databaseSettings - {parameter}), parameter)
  {
  }

  /** The required values are only checked for presence: an empty database name is accepted. */
  lemma EmptyDatabaseNameIsAccepted(path: string)
    ensures var block := Dict(map[SETTING_DATABASE_NAME := Str(""), SETTING_PATH_TO_SQL_DUMP := Str(path)]);
      FromSuite(map[SETTING_PARAMETERS := Dict(map[SETTING_DATABASE_SETTINGS := block])]) ==
        Success(Settings(true, Str(path), Str(""), List([])))
  {
  }
}
