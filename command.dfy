/**
 * The command layer: each database step is one client command whose
 * non-zero exit becomes a `\RuntimeException` carrying the output, so a
 * failed step stops every later one.
 */
module Command {
  import opened Outcomes
  import opened Php
  import opened Shell

  function CreateFailed(name: string): string {
    "An error occurred while creating the new testing database '" + name + "':\n\n"
  }

  function AssertionFailed(sql: string): string {
    "An error occurred while executing custom assertion '" + sql + "':\n\n"
  }

  function MustUseCount(sql: string): string {
    "Custom assertion '" + sql + "' must use 'SELECT COUNT(*) ...'"
  }

  function HasFailed(sql: string): string {
    "Custom assertion '" + sql + "' has failed."
  }

  /** Issues the command; returns its output on exit status 0, otherwise the error built from `errorPrefix` and the output. */
  method ExecuteCommand(runner: Runner, c: Cmd, errorPrefix: string) returns (r: Result<seq<string>>)
    modifies runner
    ensures runner.log == old(runner.log) + [c]
    ensures var res := runner.respond(Render(c));
      && (res.status == 0 ==> r == Success(res.lines))
      && (res.status != 0 ==> r == Failure(Runtime(errorPrefix + Implode(res.lines))))
  {
    var res := runner.Exec(c);
    r := Checked(res, errorPrefix);
  }

  /** What `recreateDatabase` does against a client that answers `respond`. */
  function RecreateRun(respond: string -> ExecResult, name: string): Run {
    match Checked(respond(Render(Drop(name))), DropFailed(name))
    case Failure(e) => Run(Fail(e), [Drop(name)])
    case Success(_) => Run(Completed(respond(Render(Create(name))), CreateFailed(name)), [Drop(name), Create(name)])
  }

  /** What `importDatabase` does against a client that answers `respond`. */
  function ImportRun(respond: string -> ExecResult, path: string, name: string): Run {
    Run(Completed(respond(Render(Import(path, name))), ImportFailed(name)), [Import(path, name)])
  }

  /** Drops the database if it exists, then creates it with utf8mb4; a failed drop means no create. */
  method RecreateDatabase(runner: Runner, name: string) returns (r: Outcome)
    modifies runner
    ensures runner.log == old(runner.log) + RecreateRun(runner.respond, name).issued
    ensures r == RecreateRun(runner.respond, name).outcome
  {
    var dropped := ExecuteCommand(runner, Drop(name), DropFailed(name));
    if dropped.Failure? {
      return Fail(dropped.error);
    }
    var created := ExecuteCommand(runner, Create(name), CreateFailed(name));
    r := if created.Failure? then Fail(created.error) else Pass;
  }

  /** Streams the dump into the database. */
  method ImportDatabase(runner: Runner, path: string, name: string) returns (r: Outcome)
    modifies runner
    ensures runner.log == old(runner.log) + ImportRun(runner.respond, path, name).issued
    ensures r == ImportRun(runner.respond, path, name).outcome
  {
    var imported := ExecuteCommand(runner, Import(path, name), ImportFailed(name));
    r := if imported.Failure? then Fail(imported.error) else Pass;
  }

  /** The recreate step issues the drop first and the create only after a successful drop. */
  lemma RecreateOrder(respond: string -> ExecResult, name: string)
    ensures var run := RecreateRun(respond, name);
      && run.issued[0] == Drop(name)
      && (respond(Render(Drop(name))).status != 0 <==> run.issued == [Drop(name)])
      && (respond(Render(Drop(name))).status != 0 ==>
            run.outcome == Fail(Runtime(DropFailed(name) + Implode(respond(Render(Drop(name))).lines))))
      && (run.outcome.Pass? <==> respond(Render(Drop(name))).status == 0 && respond(Render(Create(name))).status == 0)
  {
  }

  /**
   * Recreating and then importing always imports into a database the server
   * holds: the create that follows a successful drop restores it.
   */
  lemma {:induction false} RecreateThenImportFindsDatabase(
    respond: string -> ExecResult, initial: set<string>, before: seq<Cmd>, path: string, name: string)
    requires ImportsFindTheirDatabase(initial, before)
    requires RecreateRun(respond, name).outcome.Pass?
    ensures ImportsFindTheirDatabase(initial, before + RecreateRun(respond, name).issued + ImportRun(respond, path, name).issued)
  {
    var log := before + [Drop(name), Create(name), Import(path, name)];
    assert log == before + RecreateRun(respond, name).issued + ImportRun(respond, path, name).issued;
    forall k | 0 <= k < |log| && log[k].Import?
      ensures log[k].name in Databases(initial, log[..k])
    {
      if k < |before| {
        assert log[..k] == before[..k];
        assert log[k] == before[k];
      } else {
        assert k == |before| + 2;
        assert log[..k][..|log[..k]| - 1] == before + [Drop(name)];
        assert log[..k][|log[..k]| - 1] == Create(name);
      }
    }
  }

  /**
   * The check on a custom assertion's output: exactly one line, whose
   * `(int)` value is 1.
   */
  function CheckAssertionOutput(sql: string, lines: seq<string>): (r: Outcome)
    ensures |lines| != 1 ==> r == Fail(Runtime(MustUseCount(sql)))
    ensures |lines| == 1 ==> (r.Pass? <==> IntCast(lines[0]) == 1)
    ensures |lines| == 1 && r.Fail? ==> r == Fail(Runtime(HasFailed(sql)))
  {
    if |lines| != 1 then Fail(Runtime(MustUseCount(sql)))
    else if IntCast(lines[0]) != 1 then Fail(Runtime(HasFailed(sql)))
    else Pass
  }

  /**
   * Runs a `SELECT COUNT(*) ...` against the database. A non-zero exit is
   * reported as a command error before the output is looked at.
   */
  method ExecuteCustomAssertion(runner: Runner, name: string, sql: string) returns (r: Outcome)
    modifies runner
    ensures runner.log == old(runner.log) + [Query(name, sql)]
    ensures var res := runner.respond(Render(Query(name, sql)));
      && (res.status != 0 ==> r == Fail(Runtime(AssertionFailed(sql) + Implode(res.lines))))
      && (res.status == 0 ==> r == CheckAssertionOutput(sql, res.lines))
  {
    var output := ExecuteCommand(runner, Query(name, sql), AssertionFailed(sql));
    if output.Failure? {
      return Fail(output.error);
    }
    r := CheckAssertionOutput(sql, output.value);
  }

  /** A count printed by the client passes the assertion exactly when it is 1. */
  lemma CountPassesExactlyWhenOne(sql: string, count: int)
    ensures CheckAssertionOutput(sql, [IntToString(count)]).Pass? <==> count == 1
  {
    IntCastOfIntToString(count);
  }

  /** "1" passes, "0" fails the assertion, and two lines are a usage error whatever they hold. */
  lemma AssertionOutputExamples(sql: string, a: string, b: string)
    ensures CheckAssertionOutput(sql, ["1"]) == Pass
    ensures CheckAssertionOutput(sql, ["0"]) == Fail(Runtime(HasFailed(sql)))
    ensures CheckAssertionOutput(sql, [a, b]) == Fail(Runtime(MustUseCount(sql)))
  {
    CountPassesExactlyWhenOne(sql, 1);
    CountPassesExactlyWhenOne(sql, 0);
    assert IntToString(1) == "1" && IntToString(0) == "0";
  }
}
