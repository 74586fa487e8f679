/** The result interpreter: what `run` (src/main.rs:94-122) makes of a
    finished `task` process, and the softening `list_tasks` and
    `search_tasks` apply on top of it (src/main.rs:200-210, 233-243). */
module Interpreter {
  import opened Wrappers
  import opened Text

  /** What the process left behind: its captured output streams (already
      decoded), whether it exited successfully, and the display text of its
      exit status. */
  datatype ProcessOutcome = ProcessOutcome(
    stdout: string,
    stderr: string,
    success: bool,
    statusText: string)

  /** The message used when a failed process printed nothing at all. */
  function StatusMessage(statusText: string): string {
    "task exited with status " + statusText
  }

  /** `run` after the process returns. It fails exactly when the exit was
      unsuccessful and standard output is blank; the error is the trimmed
      standard error, or the status message when that is blank too, and is
      never empty. Otherwise the text is the trimmed standard output, or the
      trimmed standard error when standard output is blank: a failed exit
      that still printed to standard output counts as success. */
  function Run(o: ProcessOutcome): (r: Result<string>)
    ensures r.Err? <==> !o.success && IsBlank(o.stdout)
    ensures r.Err? ==> r.error != []
    ensures r.Err? && !IsBlank(o.stderr) ==> r.error == Trim(o.stderr)
    ensures r.Err? && IsBlank(o.stderr) ==> r.error == StatusMessage(o.statusText)
    ensures r.Ok? && !IsBlank(o.stdout) ==> r.value == Trim(o.stdout)
    ensures r.Ok? && IsBlank(o.stdout) ==> r.value == Trim(o.stderr)
  {
    var stdout := Trim(o.stdout);
    var stderr := Trim(o.stderr);
    if !o.success && stdout == [] then
      Err(if stderr != [] then stderr else StatusMessage(o.statusText))
    else
      Ok(if stdout != [] then stdout else stderr)
  }

  /** `run` succeeds with no text at all only for a successful process that
      printed nothing but whitespace on either stream. */
  lemma RunEmptyText(o: ProcessOutcome)
    ensures Run(o) == Ok([]) <==> o.success && IsBlank(o.stdout) && IsBlank(o.stderr)
  {
  }

  /** Whatever `run` reports, success text or error message, carries no
      leading or trailing whitespace, except a status message built from a
      status text that has some. */
  lemma RunTextIsTrimmed(o: ProcessOutcome)
    ensures Run(o).Ok? ==> Trim(Run(o).value) == Run(o).value
    ensures Run(o).Err? && !IsBlank(o.stderr) ==> Trim(Run(o).error) == Run(o).error
  {
    TrimIdempotent(o.stdout);
    TrimIdempotent(o.stderr);
  }

  /** The fixed texts of the softened report tools. */
  const NoTasksFound: string := "No tasks found."
  const NoMatchingTasks: string := "No matching tasks."

  /** The softening of `list_tasks`/`search_tasks`: any error of `run`, and
      any empty success, becomes the fixed `fallback` text; so the caller
      always gets text, never an error. The fallback appears whenever
      standard output is blank and the process either failed or left
      standard error blank too; otherwise the text is the trimmed stream
      `run` chose. */
  function ReportText(o: ProcessOutcome, fallback: string): (text: string)
    requires fallback != []
    ensures text != []
    ensures IsBlank(o.stdout) && (!o.success || IsBlank(o.stderr)) ==> text == fallback
    ensures !IsBlank(o.stdout) ==> text == Trim(o.stdout)
    ensures IsBlank(o.stdout) && o.success && !IsBlank(o.stderr) ==> text == Trim(o.stderr)
  {
    var out := Run(o).GetOr(fallback);
    if out == [] then fallback else out
  }

  /** `list_tasks`'s text for a finished process: "No tasks found." when
      standard output is blank and the process failed or left standard
      error blank too, otherwise the trimmed stream `run` chose. */
  function ListText(o: ProcessOutcome): (text: string)
    ensures text != []
    ensures IsBlank(o.stdout) && (!o.success || IsBlank(o.stderr)) ==> text == "No tasks found."
    ensures !IsBlank(o.stdout) ==> text == Trim(o.stdout)
    ensures IsBlank(o.stdout) && o.success && !IsBlank(o.stderr) ==> text == Trim(o.stderr)
  {
    ReportText(o, NoTasksFound)
  }

  /** `search_tasks`'s text for a finished process: "No matching tasks."
      when standard output is blank and the process failed or left standard
      error blank too, otherwise the trimmed stream `run` chose. */
  function SearchText(o: ProcessOutcome): (text: string)
    ensures text != []
    ensures IsBlank(o.stdout) && (!o.success || IsBlank(o.stderr)) ==> text == "No matching tasks."
    ensures !IsBlank(o.stdout) ==> text == Trim(o.stdout)
    ensures IsBlank(o.stdout) && o.success && !IsBlank(o.stderr) ==> text == Trim(o.stderr)
  {
    ReportText(o, NoMatchingTasks)
  }
}
