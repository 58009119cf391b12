/**
 * Platform detection and the Magento 1 guard: before anything destructive
 * runs, a Magento 1 project must be configured to use the testing database.
 */
module Platform {
  import opened Outcomes
  import opened Php
  import opened ProjectRoot

  const MAGENTO_ONE := "magento"

  const NO_DBNAME := "You need to configure a dbname in your local.xml"

  function UseTestingDatabase(databaseName: string): string {
    "You need to configure Magento to use the testing database '" + databaseName + "' in local.xml"
  }

  /** Walks up from the hook's directory; a Magento 1 root comes back tagged "magento". */
  method Detect(d: Disk) returns (r: Result<Detected>)
    ensures r.Success? <==> FindRoot(d.files, Levels(d)).Success?
    ensures r.Success? ==> r.value == Detected(Some(MAGENTO_ONE), FindRoot(d.files, Levels(d)).value)
    ensures r.Failure? ==> r.error == FindRoot(d.files, Levels(d)).error
  {
    var root := Walk(d);
    r := Tagged(root, Some(MAGENTO_ONE));
  }

  /**
   * The dbname node of the root's local.xml must be present and equal, as a
   * string, to the testing database name; a missing node is a runtime error,
   * a different name an invalid argument.
   */
  function AssertMagentoOneUsingTestingDatabase(d: Disk, projectRoot: string, databaseName: Value): (r: Outcome)
    ensures r.Pass? <==> databaseName.Str? && LocalXmlAt(d, projectRoot + LOCAL_XML).dbname == Some(databaseName.s)
    ensures LocalXmlAt(d, projectRoot + LOCAL_XML).dbname == None ==> r == Fail(Runtime(NO_DBNAME))
    ensures LocalXmlAt(d, projectRoot + LOCAL_XML).dbname.Some? && r.Fail? ==>
      r == Fail(InvalidArgument(UseTestingDatabase(ToString(databaseName))))
  {
    match LocalXmlAt(d, projectRoot + LOCAL_XML).dbname
    case None => Fail(Runtime(NO_DBNAME))
    case Some(dbname) =>
      if Str(dbname) == databaseName then Pass
      else Fail(InvalidArgument(UseTestingDatabase(ToString(databaseName))))
  }

  /** The platform switch after detection; only the Magento 1 case has a check. */
  method AssertTestingDatabaseIsBeingUsed(d: Disk, databaseName: Value) returns (r: Outcome)
    ensures r == TestingDatabaseCheck(d, databaseName)
    ensures r.Pass? <==>
      (FindRoot(d.files, Levels(d)).Success? && databaseName.Str? &&
       LocalXmlAt(d, FindRoot(d.files, Levels(d)).value + LOCAL_XML).dbname == Some(databaseName.s))
    ensures FindRoot(d.files, Levels(d)).Failure? ==> r == Fail(FindRoot(d.files, Levels(d)).error)
  {
    var detected := Detect(d);
    match detected
    case Failure(e) =>
      r := Fail(e);
    case Success(Detected(platform, projectRoot)) =>
      if platform == Some(MAGENTO_ONE) {
        r := AssertMagentoOneUsingTestingDatabase(d, projectRoot, databaseName);
      } else {
        r := Pass;
      }
  }

  /** The outcome of the detection and the platform check. */
  function TestingDatabaseCheck(d: Disk, databaseName: Value): Outcome {
    match FindRoot(d.files, Levels(d))
    case Failure(e) => Fail(e)
    case Success(root) => AssertMagentoOneUsingTestingDatabase(d, root, databaseName)
  }

  /**
   * The check succeeds exactly when the walk finds a Magento 1 root whose
   * local.xml names the testing database; every other walk or configuration
   * fails it.
   */
  lemma {:induction false} CheckPassesOnlyForMatchingMagentoOne(d: Disk, databaseName: Value)
    ensures TestingDatabaseCheck(d, databaseName).Pass? <==>
      exists k :: 0 <= k < |Levels(d)| && FirstMarked(d.files, Levels(d)) == k
        && MarkerAt(d.files, Levels(d)[k]) == MagentoOne
        && databaseName.Str?
        && LocalXmlAt(d, Levels(d)[k] + LOCAL_XML).dbname == Some(databaseName.s)
  {
    var levels := Levels(d);
    var k := FirstMarked(d.files, levels);
    FindRootIsFirstMarked(d.files, levels);
    if TestingDatabaseCheck(d, databaseName).Pass? {
      assert k < |levels| && MarkerAt(d.files, levels[k]) == MagentoOne;
    }
  }

  /**
   * A Magento 1 project whose local.xml names another database stops the
   * setup with an invalid argument before any database command.
   */
  lemma MismatchedLocalXmlIsRejected(d: Disk, databaseName: string)
    requires FindRoot(d.files, Levels(d)).Success?
    requires var root := FindRoot(d.files, Levels(d)).value;
      LocalXmlAt(d, root + LOCAL_XML).dbname.Some? && LocalXmlAt(d, root + LOCAL_XML).dbname != Some(databaseName)
    ensures TestingDatabaseCheck(d, Str(databaseName)) == Fail(InvalidArgument(UseTestingDatabase(databaseName)))
  {
  }
}
