/**
 * The lint task (tasks/lint.js): announces what it lints, runs eslint with
 * the friendly formatter on the input directory (fixing issues when asked),
 * and reports success once the process has exited cleanly. The process run
 * itself is an input: whether it succeeds is a parameter. Log calls are
 * recorded as calls; what they print is the business of the Log module.
 */
module Lint {
  import opened Wrappers
  import opened Paths
  import opened Settings
  import Log

  /** What the lint task does, in order. */
  datatype Event = Logged(call: Log.Call) | Spawned(command: string, args: seq<string>)

  /** One lint run: the process it starts, what happened, and whether it resolved. */
  datatype LintRun = LintRun(command: string, args: seq<string>, events: seq<Event>, ok: bool)

  const Command: string := "eslint"

  /** The formatter module, resolved against the working directory (taken to be absolute). */
  function FormatterPath(cwd: string): string {
    Join(cwd, "node_modules/eslint-friendly-formatter")
  }

  /** The directory that gets linted. */
  function InputDir(config: Config, cwd: string): string {
    Join(cwd, config.input.baseDir)
  }

  /** The argument vector: the formatter, `--fix` when fixing, and the input directory last. */
  function LintArgs(config: Config, cwd: string, shouldLintFix: bool): seq<string> {
    ["-f", FormatterPath(cwd)] + (if shouldLintFix then ["--fix"] else []) + [InputDir(config, cwd)]
  }

  /**
   * The argument vector starts with `-f` and the formatter path, has `--fix`
   * right after it exactly when fixing, and ends with the input directory.
   */
  lemma LintArgsShape(config: Config, cwd: string, shouldLintFix: bool)
    ensures var args := LintArgs(config, cwd, shouldLintFix);
      && |args| == (if shouldLintFix then 4 else 3)
      && args[0] == "-f"
      && args[1] == FormatterPath(cwd)
      && (shouldLintFix <==> args[2] == "--fix" && |args| == 4)
      && args[|args| - 1] == InputDir(config, cwd)
  {
  }

  /** The announcement, with the directory in cyan. */
  function Announcement(config: Config, cwd: string, shouldLintFix: bool): string {
    (if shouldLintFix then "Linting and fixing " else "Linting ") + Log.Paint(Log.Cyan, InputDir(config, cwd)) + "..."
  }

  const Completed: string := "Linter completed successfully"

  /** The events of a run: the announcement, the spawn, and the success report only if the process succeeded. */
  function LintEvents(config: Config, cwd: string, shouldLintFix: bool, spawnSucceeds: bool): seq<Event> {
    [Logged(Log.InfoCall(Announcement(config, cwd, shouldLintFix))), Spawned(Command, LintArgs(config, cwd, shouldLintFix))]
    + (if spawnSucceeds then [Logged(Log.SucceedCall(Completed))] else [])
  }

  /**
   * The announcement comes first and the spawn second; success is reported
   * after the spawn and only when it resolves, and the run fails exactly when
   * the spawn does.
   */
  lemma LintEventsOrder(config: Config, cwd: string, shouldLintFix: bool, spawnSucceeds: bool)
    ensures var events := LintEvents(config, cwd, shouldLintFix, spawnSucceeds);
      && |events| == (if spawnSucceeds then 3 else 2)
      && events[0] == Logged(Log.InfoCall(Announcement(config, cwd, shouldLintFix)))
      && events[1] == Spawned("eslint", LintArgs(config, cwd, shouldLintFix))
      && (forall k :: 0 <= k < |events| && events[k].Spawned? ==> k == 1)
      && (spawnSucceeds ==> events[2] == Logged(Log.SucceedCall("Linter completed successfully")))
  {
  }

  /** The exported task: builds the arguments in place and runs eslint with them. */
  method LintTask(config: Config, cwd: string, shouldLintFix: bool, spawnSucceeds: bool) returns (run: LintRun)
    ensures run.command == Command
    ensures run.args == LintArgs(config, cwd, shouldLintFix)
    ensures run.events == LintEvents(config, cwd, shouldLintFix, spawnSucceeds)
    ensures run.ok == spawnSucceeds
  {
    var inputDir := Join(cwd, config.input.baseDir);
    var events := [Logged(Log.InfoCall(Announcement(config, cwd, shouldLintFix)))];
    var command := "eslint";
    var args := ["-f", Join(cwd, "node_modules/eslint-friendly-formatter")];
    if shouldLintFix {
      args := args + ["--fix"];
    }
    args := args + [inputDir];
    events := events + [Spawned(command, args)];
    if spawnSucceeds {
      events := events + [Logged(Log.SucceedCall(Completed))];
    }
    run := LintRun(command, args, events, spawnSucceeds);
  }
}
