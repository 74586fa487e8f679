/** The request compiler: each tool handler of src/main.rs turns its typed
    request into the ordered argument vector handed to the `task` command.
    The central safety rule is project scoping: `add` always names its
    project, and `list`/`search` put `project:<p>` in front of every
    caller-supplied filter token unless the caller asked for all projects. */
module Compiler {
  import opened Wrappers
  import opened Text
  import opened Requests

  /** The report `list_tasks` runs when none is named. */
  const DefaultReport: string := "next"

  /** The verb `search_tasks` always ends with. */
  const SearchReport: string := "list"

  function ProjectToken(project: string): string {
    "project:" + project
  }

  /** Tokens contributed by an optional free-form filter or modification
      string: its whitespace-separated words, or none when it is absent. */
  function FilterTokens(filter: Option<string>): seq<string> {
    match filter
    case None => []
    case Some(f) => SplitWhitespace(f)
  }

  /** The scoping prefix of `list_tasks`/`search_tasks`: the project token,
      dropped only when `all_projects` is explicitly `Some(true)`. */
  function ScopeTokens(project: string, allProjects: Option<bool>): (r: seq<string>)
    ensures r == [] <==> allProjects == Some(true)
    ensures r != [] ==> r == [ProjectToken(project)]
  {
    if !allProjects.GetOr(false) then [ProjectToken(project)] else []
  }

  /** `key:value` for a present optional attribute, nothing for an absent one. */
  function AttributeToken(key: string, value: Option<string>): seq<string> {
    match value
    case Some(v) => [key + ":" + v]
    case None => []
  }

  /** One `+tag` token per tag, in the caller's order. */
  function TagTokens(tags: seq<string>): (r: seq<string>)
    ensures |r| == |tags|
    ensures forall k :: 0 <= k < |tags| ==> r[k] == "+" + tags[k]
  {
    if |tags| == 0 then [] else ["+" + tags[0]] + TagTokens(tags[1..])
  }

  /** The caller's tags, an absent list read as an empty one. */
  function TagList(req: AddTaskRequest): seq<string> {
    req.tags.GetOr([])
  }

  /** How many of the four optional attributes `add_task` was given. */
  function PresentAttributes(req: AddTaskRequest): nat {
    (if req.due.Some? then 1 else 0) + (if req.priority.Some? then 1 else 0)
    + (if req.wait.Some? then 1 else 0) + (if req.scheduled.Some? then 1 else 0)
  }

  /** `add_task` (src/main.rs:153-171). The vector starts with `add`, the
      description as one token and the project token, so the project is
      always at index 2; then one token per present attribute; then the
      tags, which fill the tail in caller order. */
  function AddArgs(req: AddTaskRequest): (r: seq<string>)
    ensures |r| == 3 + PresentAttributes(req) + |TagList(req)|
    ensures r[..3] == ["add", req.description, ProjectToken(req.project)]
    ensures forall k :: 0 <= k < |TagList(req)| ==>
              r[3 + PresentAttributes(req) + k] == "+" + TagList(req)[k]
  {
    var args := ["add", req.description, ProjectToken(req.project)];
    var args := args + AttributeToken("due", req.due);
    var args := args + AttributeToken("priority", req.priority);
    var args := args + AttributeToken("wait", req.wait);
    var args := args + AttributeToken("scheduled", req.scheduled);
    args + TagTokens(TagList(req))
  }

  /** `list_tasks` (src/main.rs:189-197). Unless `all_projects` is
      `Some(true)`, token 0 is the project token and every filter token
      follows it; the report (default `next`) is always the last token. */
  function ListArgs(req: ListTasksRequest): (r: seq<string>)
    ensures |r| >= 1
    ensures r[|r| - 1] == (if req.report.Some? then req.report.value else DefaultReport)
    ensures req.allProjects != Some(true) ==>
              |r| >= 2 && r[0] == ProjectToken(req.project) && r[1..|r| - 1] == FilterTokens(req.filter)
    ensures req.allProjects == Some(true) ==> r[..|r| - 1] == FilterTokens(req.filter)
  {
    ScopeTokens(req.project, req.allProjects)
    + FilterTokens(req.filter)
    + [req.report.GetOr(DefaultReport)]
  }

  /** The delimited-regex token: the pattern between slashes, verbatim,
      with no escaping of a `/` inside it. */
  function RegexToken(pattern: string): (r: string)
    ensures |r| == |pattern| + 2
    ensures r[0] == '/' && r[|r| - 1] == '/'
    ensures r[1..|r| - 1] == pattern
  {
    "/" + pattern + "/"
  }

  /** `search_tasks` (src/main.rs:221-230). Scoped like `list_tasks`; the
      last two tokens are always the regex token and `list`. */
  function SearchArgs(req: SearchTasksRequest): (r: seq<string>)
    ensures |r| >= 2
    ensures r[|r| - 2..] == [RegexToken(req.pattern), SearchReport]
    ensures req.allProjects != Some(true) ==>
              |r| >= 3 && r[0] == ProjectToken(req.project) && r[1..|r| - 2] == FilterTokens(req.filter)
    ensures req.allProjects == Some(true) ==> r[..|r| - 2] == FilterTokens(req.filter)
  {
    ScopeTokens(req.project, req.allProjects)
    + FilterTokens(req.filter)
    + [RegexToken(req.pattern), SearchReport]
  }

  /** `get_task` (src/main.rs:253). */
  function GetArgs(req: TaskIdRequest): seq<string> {
    [req.id, "information"]
  }

  /** `modify_task` (src/main.rs:265-266): the id and `modify`, then the
      modification words, with no token empty or holding whitespace and
      no non-whitespace character of the modifications lost or reordered. */
  function ModifyArgs(req: ModifyTaskRequest): (r: seq<string>)
    ensures |r| >= 2 && r[0] == req.id && r[1] == "modify"
    ensures forall k :: 2 <= k < |r| ==> IsWord(r[k])
    ensures Concat(r[2..]) == RemoveWhitespace(req.modifications)
  {
    [req.id, "modify"] + SplitWhitespace(req.modifications)
  }

  /** `complete_task` (src/main.rs:279). */
  function CompleteArgs(req: TaskIdRequest): seq<string> {
    [req.id, "done"]
  }

  /** `delete_task` (src/main.rs:289). */
  function DeleteArgs(req: TaskIdRequest): seq<string> {
    [req.id, "delete"]
  }

  /** `annotate_task` (src/main.rs:301): the note is one token, whatever it holds. */
  function AnnotateArgs(req: AnnotateTaskRequest): seq<string> {
    [req.id, "annotate", req.note]
  }

  /** The argument vector of any request, as its tool handler builds it. */
  function Compile(req: Request): seq<string> {
    match req
    case AddTask(r) => AddArgs(r)
    case ListTasks(r) => ListArgs(r)
    case SearchTasks(r) => SearchArgs(r)
    case GetTask(r) => GetArgs(r)
    case ModifyTask(r) => ModifyArgs(r)
    case CompleteTask(r) => CompleteArgs(r)
    case DeleteTask(r) => DeleteArgs(r)
    case AnnotateTask(r) => AnnotateArgs(r)
  }

  /** With `all_projects == Some(true)` the project field has no influence:
      any two projects compile to the same `list` and `search` vectors. */
  lemma AllProjectsIgnoresProject(list: ListTasksRequest, search: SearchTasksRequest, other: string)
    requires list.allProjects == Some(true) && search.allProjects == Some(true)
    ensures ListArgs(list) == ListArgs(list.(project := other))
    ensures SearchArgs(search) == SearchArgs(search.(project := other))
  {
  }

  /** Without the override, scoping is never lost: `list` and `search`
      vectors of different projects differ in token 0, whatever the filter. */
  lemma ScopedProjectsStayApart(list: ListTasksRequest, search: SearchTasksRequest, other: string)
    requires list.allProjects != Some(true) && search.allProjects != Some(true)
    ensures ListArgs(list)[0] == ListArgs(list.(project := other))[0] <==> list.project == other
    ensures SearchArgs(search)[0] == SearchArgs(search.(project := other))[0] <==> search.project == other
  {
    ProjectTokenInjective(list.project, other);
    ProjectTokenInjective(search.project, other);
  }

  lemma ProjectTokenInjective(a: string, b: string)
    ensures ProjectToken(a) == ProjectToken(b) <==> a == b
  {
    if ProjectToken(a) == ProjectToken(b) {
      assert a == ProjectToken(a)[8..] && b == ProjectToken(b)[8..];
    }
  }

  /** A modification string written as space-separated words reaches the
      command as exactly those words (a token holding whitespace cannot be
      expressed this way). */
  lemma {:induction false} ModifyWordsRoundTrip(id: string, words: seq<string>)
    requires forall k :: 0 <= k < |words| ==> IsWord(words[k])
    ensures ModifyArgs(ModifyTaskRequest(id, JoinSpaces(words))) == [id, "modify"] + words
  {
    SplitJoin(words);
  }
}
