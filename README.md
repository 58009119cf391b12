# behat-db-context, modelled in Dafny

behat-db-context is a Behat `@BeforeSuite` hook. Before an acceptance suite runs, it prepares a MySQL testing database:

- it reads the database settings from the suite's `parameters` block;
- it checks that the settings are present;
- it walks up from its own directory to find the project root and refuses unsupported platforms;
- for a Magento 1 project, it checks that `local.xml` points at the testing database;
- it drops, recreates and re-imports the database from an SQL dump;
- it runs `SELECT COUNT(*)` custom assertions.

Any failure throws and aborts the suite.

The model keeps the hook's logic and replaces its surroundings with values:

- **Configuration** is a PHP value (`Php.Value`: null, bool, int, string, list, string-keyed map). `isset`, `(bool)`, `(int)`, string interpolation and `implode` are written out with PHP's rules.
- **The filesystem** is a `ProjectRoot.Disk`. It holds the set of paths where `is_file` holds and the set of readable paths. It also holds the directory the walk starts from (`here`, the `__DIR__` of the detecting source file) and the finite sequence of parent directories that `realpath` yields, up to the filesystem root. Finally, it holds the contents of each `local.xml`: the raw text and the parsed `dbname` node, if any.
- **`exec`** is a `Shell.Runner`. Its fixed answer function maps a command line to an exit status and output lines. The runner records every command it issues in `log`, so statements like "no drop was issued" can be proved.
- **Exceptions** become `Outcomes.Outcome` / `Outcomes.Result` values. `\InvalidArgumentException` becomes `InvalidArgument` and `\RuntimeException` becomes `Runtime`. PHP's `TypeError` for a non-array passed where `array` is declared becomes `ArrayExpected`.

One module per source file:

- `Settings` models `src/Util/Settings.php`.
- `Platform` models `src/Util/Platform.php`.
- `Command` models `src/Util/Command.php`.
- `DbContext` models the older, self-contained hook in `src/DbContext.php`. That hook reads its keys straight from `parameters`. It has no create step and no custom assertions.

The ancestor walk is the same loop in `src/Util/Platform.php` and `src/DbContext.php`, so it is defined once, in `ProjectRoot`. The two detectors differ in the platform tag they return and in where the walk starts. `src/Util/Platform.php` starts in `<root>/src/Util` and `src/DbContext.php` in `<root>/src`, so the former probes one level more; each detector gets its own `Disk` with its own `here`.

Where the code and the documented intent of the project differ, the model follows the code:

- A `databaseSettings` block that is missing or is not an array is reported by PHP's `array` type check, not by the section message: the section check passes as soon as `parameters` exists. See `Settings.MissingBlockIsNotReportedAsMissingSection`.
- Required values are checked only with `isset`. An empty `databaseName` is accepted (`Settings.EmptyDatabaseNameIsAccepted`).
- The walk ends only at a marker or when `realpath` fails, and `realpath` does not fail at the filesystem root. This is listed under Findings.
- In `src/DbContext.php` the Magento 1 check never runs, and no create step comes between the drop and the import. Both are listed under Findings.

## Model

| member | source | states |
|---|---|---|
| `Php.DigitPrefix` | src/Util/Command.php:66 | The `(int)` cast reads the longest run of leading digits: a digit-only prefix of the input, followed by a non-digit or the end. |
| `Php.Isset` | src/Util/Settings.php:91 | `isset($v[$key])` holds exactly when `$v` is a string-keyed array whose entry under the key exists and is not null. The same test is at src/DbContext.php:48. |
| `Php.ToBool` | src/Util/Settings.php:83 | The `(bool)` cast is false for exactly PHP's falsy values: null, false, 0, `""`, `"0"`, the empty list and the empty map. The same cast is at src/DbContext.php:40. |
| `Php.Implode` | src/Util/Command.php:14 | `implode("\n", …)` starts with the first line, and for lines without newlines its result holds a newline exactly when there is more than one line. |
| `Php.ToString` | src/DbContext.php:76 | Interpolating a value into a command line or a message: a string goes in unchanged, and an integer as decimal text that `(int)` reads back to the integer. True becomes "1", null and false become "", and any array becomes "Array". The same conversion is at src/DbContext.php:69, :85, :92 and :101, and at src/Util/Platform.php:71. |
| `Php.IntCast` | src/Util/Command.php:66 | A digit-only string casts to the number its digits denote, the empty string included; a string without any digit casts to 0. |
| `Php.IntCastOfIntToString` | src/Util/Command.php:66 | `(int)` of a rendered integer is that integer, for every integer including negative ones. |
| `Php.ExplodeImplode` | src/Util/Command.php:14 | For non-empty `exec` output, joining the lines with `"\n"` loses nothing: splitting the result at newlines gives back exactly the lines. Empty output and a single empty line join to the same empty string. |
| `Shell.FailureCarriesOutput` | src/Util/Command.php:13-19 | A non-zero exit with non-empty output yields a runtime error. Its message starts with the step's message, and the rest splits back into every output line. |
| `Shell.Render` | src/Util/Command.php:26-53 | Every command line runs the `mysql` client, and the database name sits verbatim at a fixed place. For a drop or a create it is inside the quoted statement, between the `DROP DATABASE IF EXISTS` or `CREATE DATABASE` prefix and the closing quote or the `utf8mb4` character-set suffix. For an import or a query it comes right after `mysql `, followed by a space. An import line ends with the dump path. The older hook's lines at src/DbContext.php:76 and :92 are the same. |
| `Shell.Runner.Exec` | src/Util/Command.php:11 | `exec` issues exactly one command: the command is appended to the log, and the exit status and output lines are the client's answer to its rendered line. The same call is at src/DbContext.php:79 and :95. |
| `Shell.Checked` | src/Util/Command.php:13-21 | Succeeds exactly on exit status 0, and then returns the output lines unchanged. Otherwise the result is a runtime error whose message starts with the step's message. The older hook's drop and import (src/DbContext.php:81-87, :97-103) use the same check. |
| `ProjectRoot.MarkerAt` | src/Util/Platform.php:11-24 | A level is Magento 1 exactly when it holds `public/app/etc/local.xml`. It is Magento 2 exactly when it holds `bin/magento` but no local.xml, and Laravel exactly when it holds `artisan` and neither of the others. It is unmarked exactly when it holds none of the three. The walk probes in that order (src/Util/Platform.php:32-42, src/DbContext.php:152-183). |
| `ProjectRoot.FirstMarked` | src/Util/Platform.php:31-49 | The first level carrying a marker: every level below it is unmarked, and it is marked unless the walk is exhausted. |
| `ProjectRoot.FindRootIsFirstMarked` | src/Util/Platform.php:26-52 | The walk's outcome is decided by the first marked level. Magento 1 gives that level as root; Magento 2 or Laravel gives the "not supported" error. When the walk runs out of parents with no marked level, it fails with "Failed finding project root.". |
| `ProjectRoot.NothingAboveFirstMarkIsInspected` | src/Util/Platform.php:31-49 | Any walk that agrees with this one up to and including the first marked level ends the same way. |
| `ProjectRoot.MagentoOneWinsAtItsLevel` | src/Util/Platform.php:32-34 | A Magento 1 marker at the first marked level wins over Magento 2 and Laravel markers at that level and returns that level as root. |
| `ProjectRoot.MagentoTwoBeforeMagentoOneIsFatal` | src/Util/Platform.php:36-38 | A Magento 2 marker reached before any Magento 1 marker fails with "Magento 2 detected", whatever lies above. |
| `ProjectRoot.WalkUpTo` | src/Util/Platform.php:31-49 | The loop as written, with `realpath` as a function, for a bounded number of steps. When it ends, it ends with a directory holding local.xml or with one of the Magento 2, Laravel and root-not-found errors. The same loop is at src/DbContext.php:172-190. |
| `ProjectRoot.WalkUpToIsFindRootWhenMarked` | src/Util/Platform.php:31-49 | When some level up to the root is marked, the loop as written ends within as many steps as there are levels, with the verdict `FindRoot` gives. Only a walk that reaches an unmarked `/` differs from the finite walk. |
| `ProjectRoot.WalkNeverLeavesUnmarkedRoot` | src/Util/Platform.php:44-48 | When the walk reaches an unmarked `/`, no number of steps ends it, because `realpath` of `/` followed by `/../` is `/` again. |
| `ProjectRoot.CorrectedWalkIsFindRoot` | src/Util/Platform.php:31-49 | The walk that also stops at a directory that is its own parent ends within as many steps as there are levels up to the root. Its verdict is `FindRoot` of those levels. |
| `ProjectRoot.Walk` | src/DbContext.php:167-191 | The `while` loop that probes the markers and steps to the parent returns exactly `FindRoot` of the visited levels. |
| `Settings.AssertDatabaseSettingsSectionExists` | src/Util/Settings.php:47-62 | Passes exactly when the suite has a `parameters` setting. Otherwise it fails with the "parameters section" message. |
| `Settings.ExtractCustomAssertions` | src/Util/Settings.php:71-78 | The configured value unchanged when set and not null; otherwise the empty list. |
| `Settings.ExtractImportTestingDatabase` | src/Util/Settings.php:80-87 | True when the key is absent or null; otherwise the `(bool)` cast of the value. |
| `Settings.AssertParameterExists` | src/Util/Settings.php:89-98 | Passes exactly when the key holds a non-null value. Otherwise it fails with the message naming the key. |
| `Settings.AssertRequiredDatabaseParametersExist` | src/Util/Settings.php:100-104 | Passes exactly when both keys are set. A non-array fails the type check. Otherwise the error names `databaseName` when it is missing, and `pathToSqlDump` only when `databaseName` is set. |
| `Settings.ExtractDatabaseSettings` | src/Util/Settings.php:64-69 | The `databaseSettings` entry of `parameters` when `parameters` is an array holding that key; null in every other case. |
| `Settings.ExtractSettings` | src/Util/Settings.php:106-117 | Succeeds exactly when `parameters` exists and its `databaseSettings` block sets both required keys, and then returns that block. Without `parameters` it fails with the section message. Otherwise the error is the required-parameter check's error. |
| `Settings.FromSuite` | src/Util/Settings.php:37-45 | Construction succeeds exactly when extraction does, and fails with the same error: no partly filled `Settings` exists. |
| `Settings.GettersReturnConfiguredValues` | src/Util/Settings.php:119-149 | The getters return the configured, non-null `databaseName` and `pathToSqlDump`, and the import flag and custom assertions with their defaults. |
| `Settings.MissingBlockIsNotReportedAsMissingSection` | src/Util/Settings.php:47-69 | With `parameters` present but no array under `databaseSettings`, construction fails with the type error, not the section message. |
| `Settings.NullCountsAsMissing` | src/Util/Settings.php:91 | A key holding null is treated exactly like an absent key. |
| `Settings.EmptyDatabaseNameIsAccepted` | src/Util/Settings.php:89-104 | An empty-string `databaseName` passes validation, and the defaults (import on, no assertions) apply. |
| `Platform.Detect` | src/Util/Platform.php:26-52 | Succeeds exactly when the walk finds a root, tags it "magento", and otherwise passes the walk's error through. |
| `Platform.AssertMagentoOneUsingTestingDatabase` | src/Util/Platform.php:54-73 | Passes exactly when local.xml's dbname is present and equal, as a string, to the database name. A missing node is a runtime error; a different name is an invalid argument. |
| `Platform.AssertTestingDatabaseIsBeingUsed` | src/Util/Platform.php:75-85 | Passes if and only if detection finds a Magento 1 root whose local.xml dbname equals the database name. A failed detection passes its error through. |
| `Platform.CheckPassesOnlyForMatchingMagentoOne` | src/Util/Platform.php:75-85 | The check passes if and only if the first marked level is a Magento 1 root whose local.xml names the testing database. |
| `Platform.MismatchedLocalXmlIsRejected` | src/Util/Platform.php:66-72 | A Magento 1 root whose local.xml names another database fails the check with the "configure Magento to use the testing database" error. |
| `Command.ExecuteCommand` | src/Util/Command.php:7-22 | Issues exactly the one command. On exit 0 it returns the output lines unchanged; otherwise it returns a runtime error: the message followed by the lines joined with `"\n"`. |
| `Command.RecreateDatabase` | src/Util/Command.php:24-39 | Appends the commands of `RecreateRun` to the log and ends as it says. |
| `Command.ImportDatabase` | src/Util/Command.php:41-49 | Appends the import of the dump into the database to the log and ends as `ImportRun` says. |
| `Command.RecreateOrder` | src/Util/Command.php:24-39 | The drop comes first, and the create is issued if and only if the drop exits 0. A failed drop reports its output. Recreate succeeds exactly when both commands exit 0. |
| `Command.RecreateThenImportFindsDatabase` | src/Util/Command.php:24-49 | After a successful recreate, the following import targets a database the server holds. |
| `Command.CheckAssertionOutput` | src/Util/Command.php:60-72 | A line count other than 1 fails with the "must use SELECT COUNT(*)" error, whatever the content. With one line it passes if and only if the line's `(int)` value is 1; otherwise it fails with "has failed". |
| `Command.ExecuteCustomAssertion` | src/Util/Command.php:51-73 | Issues the query only. A non-zero exit is the command error, reported before the output is inspected. Otherwise the output check decides. |
| `Command.CountPassesExactlyWhenOne` | src/Util/Command.php:66-72 | A count printed by the client passes if and only if it is 1. |
| `Command.AssertionOutputExamples` | src/Util/Command.php:60-72 | `["1"]` passes, `["0"]` fails with "has failed", and any two lines fail with the "must use SELECT COUNT(*)" error. |
| `DbContext.AssertParametersSectionExists` | src/DbContext.php:21-30 | Passes exactly when the suite has a `parameters` setting. Otherwise it raises an invalid argument. |
| `DbContext.ShouldImportTestingDatabase` | src/DbContext.php:37-44 | True when the key is absent or null; otherwise the `(bool)` cast of the value. |
| `DbContext.AssertExists` | src/DbContext.php:46-55 | Passes exactly when the key holds a non-null value. Otherwise it fails with the message naming the key. |
| `DbContext.AssertRequiredDatabaseParametersSet` | src/DbContext.php:57-61 | Passes exactly when both keys are set. Otherwise `databaseName` is reported first, and a non-array fails the type check. |
| `DbContext.AssertSqlDumpIsReadable` | src/DbContext.php:63-72 | Passes exactly when the dump path exists and is readable. Otherwise the error names the path. |
| `DbContext.DropDatabase` | src/DbContext.php:74-88 | Issues the drop only. A non-zero exit becomes the "dropping" runtime error with the output joined by newlines. |
| `DbContext.ImportDatabase` | src/DbContext.php:90-104 | Issues the import only. A non-zero exit becomes the "importing" runtime error with the output joined by newlines. |
| `DbContext.ImportFreshTestingDatabase` | src/DbContext.php:106-123 | Appends the commands of `ImportFresh` to the log and ends as it says: nothing when the flag is off; otherwise readability check, then drop, then import. |
| `DbContext.AssertMagentoOneUsingTestingDatabase` | src/DbContext.php:125-137 | Passes exactly when the raw local.xml text contains the CDATA dbname element for the database name. |
| `DbContext.DetectPlatform` | src/DbContext.php:167-191 | Succeeds exactly when the walk finds a root, returns it with the platform still null, and otherwise passes the walk's error through. |
| `DbContext.AssertTestingDatabaseIsBeingUsed` | src/DbContext.php:139-150 | Passes if and only if the walk finds a root; otherwise it fails with the walk's error. The Magento 1 case never fires. |
| `DbContext.SetupTestingDatabase` | src/DbContext.php:198-210 | Appends exactly the commands of `Setup` to the log and ends as it says. |
| `DbContext.MissingParametersStopsEverything` | src/DbContext.php:21-30 | Without `parameters`, the hook fails with the invalid-argument message and issues no command. |
| `DbContext.CommandsOnlyAfterEveryCheck` | src/DbContext.php:198-210 | A command is issued only if parameters exist, both keys are set, the walk found a root, the flag is on and the dump is readable. The commands are then the drop, or the drop followed by the import. |
| `DbContext.NoImportMeansNoCommands` | src/DbContext.php:106-110 | With the flag off and the checks passing, the hook succeeds and issues no command. |
| `DbContext.DropFailureStopsImport` | src/DbContext.php:117-120 | A failed drop ends the hook with the drop error carrying the output, and no import is issued. |
| `DbContext.UnmarkedWalkStopsSetup` | src/DbContext.php:185-189 | When the walk runs out of parents with no marked level, the hook fails with "Failed finding project root." and issues no command. |
| `DbContext.MagentoGuardNeverRuns` | src/DbContext.php:170-174 | Once the walk finds a root, the hook proceeds to the fresh import whatever local.xml says. |
| `DbContext.ImportTargetsDroppedDatabase` | src/DbContext.php:119-120 | When both drop and import are issued, the import targets the database just dropped, so not every import finds its database. |

## Findings

| source | as written | input that shows it | evidently intended | confidence | as-written member | corrected member |
|---|---|---|---|---|---|---|
| src/DbContext.php:170-174 | On a Magento 1 hit the walk returns `[$platform, $searchPath]` while `$platform` is still null. The `PLATFORM_MAGENTO_ONE` case at :144-149 therefore never matches, and local.xml is never checked. | A Magento 1 project whose local.xml names `prod_db`, with `databaseName: test_db` and a readable dump: the hook goes on to drop and import. | Return the `magento` tag so the guard runs, as src/Util/Platform.php:33 does. | high; not executed | `DbContext.MagentoGuardNeverRuns` | `Platform.MismatchedLocalXmlIsRejected` |
| src/DbContext.php:119-120 | The testing database is dropped and the dump is then imported into it, with no create in between. | Import flag on and the drop exits 0: `mysql test_db < dump.sql` runs against a database that no longer exists. | Create the database after the drop, as src/Util/Command.php:33 does. | medium; not executed | `DbContext.ImportTargetsDroppedDatabase` | `Command.RecreateThenImportFindsDatabase` |
| src/Util/Platform.php:44-48 | The walk stops only at a marker or when `realpath` returns false. At the filesystem root, `realpath('/' . '/../')` returns `/` again, never false. The same holds at src/DbContext.php:185-189. | A checkout with no `local.xml`, `bin/magento` or `artisan` on any level from the hook's directory up to `/`: the loop probes `/` forever. | Stop with "Failed finding project root." once the parent is the directory itself. | high; not executed | `ProjectRoot.WalkNeverLeavesUnmarkedRoot` | `ProjectRoot.CorrectedWalkIsFindRoot` |

## Left out

- The processes that `exec` starts are not modelled, nor shell quoting or injection through interpolated names. The client's answers are a function from command line to exit status and output lines. Each rendered command line is given exactly.
- `ImportsFindTheirDatabase` is the commands' intended effect on the server's set of databases, not a model of MySQL.
- Filesystem probes (`is_file`, `file_exists`, `is_readable`, `file_get_contents`, `realpath`) are sets and a finite sequence of parent directories ending at the filesystem root. The walk over that sequence is the corrected walk of Findings. Only `ProjectRoot.WalkUpTo` follows `realpath` as written, which never fails at `/`.
- XML parsing with `simplexml_load_string` is not modelled. Its result is the optional dbname stored with each local.xml; malformed XML counts as having no dbname.
- `DbContext.AssertMagentoOneUsingTestingDatabase` models `preg_match` as a literal substring test. This is exact only when the database name holds no regular-expression metacharacters.
- The Behat integration is not modelled (the context class, the scope and environment objects, annotation dispatch). The suite settings are a map. Reading a missing `parameters` setting is taken to yield null, which leads to the section error. Behat's own suite throws a configuration exception when a missing setting is read. With that suite, the section message at src/Util/Settings.php:59-61 is unreachable, and the suite's exception surfaces instead.
- The `echo` progress messages are not modelled.
- `Php.IntCast` reads leading blanks, a sign and digits. PHP's float and exponent forms (`"1e0"`, `"1.5"`) and saturation at `PHP_INT_MAX` are not modelled; saturation would not change the "equals 1" verdict.
- `sprintf` is modelled as the message prefix followed by the joined output. A `%` inside a database name or SQL text, which `sprintf` would interpret, is not modelled.
- Configuration values have no floats. Keys are the hook's fixed non-numeric names. Indexing a string-valued setting by a key is taken to yield null.
- Non-string path and name values are converted with PHP's string conversion. The `TypeError` that PHP 8 raises for an array passed to `file_exists` is not modelled.
- No modelled source file runs the configured custom assertions in sequence; `src/DbContext.php` predates them. Only the single assertion of `src/Util/Command.php` is modelled.
- The `Settings` getters are datatype members without contracts of their own. Their property is stated by `Settings.GettersReturnConfiguredValues`.
