/**
 * The database client as the hook sees it through `exec`: a command line
 * goes in, an exit status and the output lines come out. The client's
 * answers are a fixed function of the command line, and every command
 * issued is recorded so that what was (not) issued can be stated.
 */
module Shell {
  import opened Outcomes
  import opened Php

  /** What `exec` reports for one command: the exit status and the output lines. */
  datatype ExecResult = ExecResult(status: int, lines: seq<string>)

  /** The database-client commands the hook issues. */
  datatype Cmd =
    | Drop(name: string)
    | Create(name: string)
    | Import(path: string, name: string)
    | Query(name: string, sql: string)

  const DROP_PREFIX := "mysql -e 'DROP DATABASE IF EXISTS "
  const CREATE_PREFIX := "mysql -e 'CREATE DATABASE "
  const CREATE_SUFFIX := " CHARACTER SET = utf8mb4 COLLATE = utf8mb4_unicode_ci'"

  /**
   * The shell command line of each command. Every line runs the `mysql`
   * client, and the database it acts on sits at a fixed place in the line:
   * inside the quoted statement for a drop or a create, right after
   * `mysql ` for an import or a query; an import reads the dump path at the
   * end of the line.
   */
  function Render(c: Cmd): (r: string)
    ensures "mysql " <= r
    ensures c.Drop? ==>
      DROP_PREFIX <= r && |r| == |DROP_PREFIX| + |c.name| + 1 && r[|DROP_PREFIX|..|r| - 1] == c.name
    ensures c.Create? ==>
      && CREATE_PREFIX <= r && |r| == |CREATE_PREFIX| + |c.name| + |CREATE_SUFFIX|
      && r[|CREATE_PREFIX|..|r| - |CREATE_SUFFIX|] == c.name && r[|r| - |CREATE_SUFFIX|..] == CREATE_SUFFIX
    ensures c.Import? || c.Query? ==> |r| > 6 + |c.name| && r[6..6 + |c.name|] == c.name && r[6 + |c.name|] == ' '
    ensures c.Import? ==> |r| >= |c.path| && r[|r| - |c.path|..] == c.path
  {
    match c
    case Drop(n) => DROP_PREFIX + n + "'"
    case Create(n) => CREATE_PREFIX + n + CREATE_SUFFIX
    case Import(p, n) => "mysql " + n + " < " + p
    case Query(n, sql) => "mysql " + n + " -Ns -e \"" + sql + "\""
  }

  /**
   * The status check after `exec`: the output lines on exit status 0,
   * otherwise a `\RuntimeException` whose message is `errorPrefix`
   * followed by the output joined with newlines.
   */
  function Checked(res: ExecResult, errorPrefix: string): (r: Result<seq<string>>)
    ensures r.Success? <==> res.status == 0
    ensures r.Success? ==> r.value == res.lines
    ensures r.Failure? ==> r.error.Runtime? && errorPrefix <= r.error.message
  {
    if res.status != 0 then Failure(Runtime(errorPrefix + Implode(res.lines)))
    else Success(res.lines)
  }

  /** `Checked` for a step whose output is not used. */
  function Completed(res: ExecResult, errorPrefix: string): Outcome {
    match Checked(res, errorPrefix)
    case Failure(e) => Fail(e)
    case Success(_) => Pass
  }

  /**
   * A failed command's error message carries its output verbatim: splitting
   * what follows the prefix at newlines gives back every output line.
   */
  lemma {:induction false} FailureCarriesOutput(res: ExecResult, errorPrefix: string)
    requires res.status != 0 && res.lines != [] && SingleLines(res.lines)
    ensures Checked(res, errorPrefix).Failure?
    ensures Checked(res, errorPrefix).error.Runtime?
    ensures var m := Checked(res, errorPrefix).error.message;
      |errorPrefix| <= |m| && m[..|errorPrefix|] == errorPrefix && Explode(m[|errorPrefix|..]) == res.lines
  {
    var m := errorPrefix + Implode(res.lines);
    assert m[|errorPrefix|..] == Implode(res.lines);
    ExplodeImplode(res.lines);
  }

  /** What one step of the hook did: how it ended and the commands it issued, in order. */
  datatype Run = Run(outcome: Outcome, issued: seq<Cmd>)

  /** Messages the hook attaches to a failed drop and a failed import. */
  function DropFailed(name: string): string {
    "An error occurred while dropping the current testing database '" + name + "':\n\n"
  }

  function ImportFailed(name: string): string {
    "An error occurred while importing the new testing database '" + name + "':\n\n"
  }

  /**
   * The databases the server holds after the given commands, taking each
   * command at its intended effect: a drop removes its database, a create
   * adds it, imports and queries leave the set alone.
   */
  function Databases(initial: set<string>, log: seq<Cmd>): set<string>
    decreases |log|
  {
    if log == [] then initial
    else
      var before := Databases(initial, log[..|log| - 1]);
      match log[|log| - 1]
      case Drop(n) => before - {n}
      case Create(n) => before + {n}
      case _ => before
  }

  /**
   * Every import in the log runs against a database that exists at that
   * point (the client, given an unknown database, stops with an error
   * before reading the dump).
   */
  predicate ImportsFindTheirDatabase(initial: set<string>, log: seq<Cmd>) {
    forall k :: 0 <= k < |log| && log[k].Import? ==> log[k].name in Databases(initial, log[..k])
  }

  /** The process environment the hook runs in. */
  class Runner {
    /** The database client's answer to each command line. */
    const respond: string -> ExecResult
    /** Every command issued so far, oldest first. */
    var log: seq<Cmd>

    constructor (respond: string -> ExecResult)
      ensures this.respond == respond && log == []
    {
      this.respond := respond;
      log := [];
    }

    /** `exec($command, $output, $status)` on the rendered command line. */
    method Exec(c: Cmd) returns (res: ExecResult)
      modifies this
      ensures log == old(log) + [c]
      ensures res == respond(Render(c))
    {
      res := respond(Render(c));
      log := log + [c];
    }
  }
}
