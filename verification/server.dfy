/** The server around the compiler and interpreter: the global options put
    in front of every argument vector (src/main.rs:95-100), and each tool
    handler's response to a finished process. The process itself is not
    modelled; its outcome is an input. */
module Server {
  import opened Wrappers
  import opened Text
  import opened Requests
  import opened Compiler
  import opened Interpreter

  /** The server's configuration: an optional data directory override. */
  datatype Config = Config(dataDir: Option<string>)

  const ConfirmationOff: string := "rc.confirmation=no"

  function DataLocationToken(dir: string): string {
    "rc.data.location=" + dir
  }

  /** The options `run` passes before the request's own arguments. */
  function GlobalOptions(config: Config): seq<string> {
    [ConfirmationOff] + match config.dataDir
      case Some(dir) => [DataLocationToken(dir)]
      case None => []
  }

  /** The full argument list of the `task` command: confirmation prompts
      off first, then the data location when one is configured, then the
      request's arguments unchanged. */
  function CommandLine(config: Config, args: seq<string>): (argv: seq<string>)
    ensures |argv| >= 1 && argv[0] == ConfirmationOff
    ensures config.dataDir.Some? ==>
              |argv| == 2 + |args| && argv[1] == DataLocationToken(config.dataDir.value) && argv[2..] == args
    ensures config.dataDir.None? ==> |argv| == 1 + |args| && argv[1..] == args
  {
    GlobalOptions(config) + args
  }

  /** The response of a tool handler once its process has finished. The
      report tools never fail and always return text, softened with their
      own fallback message; every other tool fails exactly when `run` does,
      with `run`'s message, and otherwise returns `run`'s text unchanged. */
  function Respond(req: Request, o: ProcessOutcome): (r: Result<string>)
    ensures req.IsReport() ==> r.Ok? && r.value != []
    ensures req.ListTasks? ==> r == Ok(ReportText(o, NoTasksFound))
    ensures req.SearchTasks? ==> r == Ok(ReportText(o, NoMatchingTasks))
    ensures !req.IsReport() ==> r == Run(o)
  {
    match req
    case ListTasks(_) => Ok(ListText(o))
    case SearchTasks(_) => Ok(SearchText(o))
    case AddTask(_) => Run(o)
    case GetTask(_) => Run(o)
    case ModifyTask(_) => Run(o)
    case CompleteTask(_) => Run(o)
    case DeleteTask(_) => Run(o)
    case AnnotateTask(_) => Run(o)
  }

  /** A response is an error exactly for a mutating or lookup tool whose
      process failed with blank standard output. */
  lemma RespondErrIff(req: Request, o: ProcessOutcome)
    ensures Respond(req, o).Err? <==> !req.IsReport() && !o.success && IsBlank(o.stdout)
  {
  }

  /** The requests the scoping policy applies to: every `add`, and every
      `list`/`search` not explicitly marked cross-project. */
  predicate MustScope(req: Request) {
    || req.AddTask?
    || (req.ListTasks? && req.listReq.allProjects != Some(true))
    || (req.SearchTasks? && req.searchReq.allProjects != Some(true))
  }

  function ProjectOf(req: Request): string
    requires req.AddTask? || req.ListTasks? || req.SearchTasks?
  {
    match req
    case AddTask(r) => r.project
    case ListTasks(r) => r.project
    case SearchTasks(r) => r.project
  }

  /** The position of the project token among a request's own arguments:
      after `add` and the description, or first of all for a report. */
  function ScopeSlot(req: Request): nat {
    if req.AddTask? then 2 else 0
  }

  /** The scoping invariant on the full command line: a request the policy
      applies to carries `project:<p>` right after the global options (past
      `add <description>` for an add), and for `list`/`search` every
      filter-derived token comes after it. */
  lemma ScopingInvariant(config: Config, req: Request)
    requires MustScope(req)
    ensures var argv := CommandLine(config, Compile(req));
            var g := |GlobalOptions(config)|;
            g + ScopeSlot(req) < |argv| && argv[g + ScopeSlot(req)] == ProjectToken(ProjectOf(req))
    ensures req.ListTasks? ==>
              var ft := FilterTokens(req.listReq.filter);
              Compile(req)[1..1 + |ft|] == ft
    ensures req.SearchTasks? ==>
              var ft := FilterTokens(req.searchReq.filter);
              Compile(req)[1..1 + |ft|] == ft
  {
    var args := Compile(req);
    var argv := CommandLine(config, args);
    var g := |GlobalOptions(config)|;
    assert argv[g..] == args;
    if req.AddTask? {
      assert args[..3][2] == ProjectToken(ProjectOf(req));
    }
  }
}
