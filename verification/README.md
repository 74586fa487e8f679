# taskwarrior-mcp request compiler and result interpreter, in Dafny

This project models the decision logic of the taskwarrior MCP server
(`src/main.rs`). The server exposes eight tools: `add_task`, `list_tasks`,
`search_tasks`, `get_task`, `modify_task`, `complete_task`, `delete_task`
and `annotate_task`. Each tool turns a typed request into an argument
vector for the external `task` command, runs it, and interprets the output.
The model covers the three pure layers of that pipeline:

- **Request compiler** (`compiler.dfy`, module `Compiler`). Each handler's
  argument vector, including the project-scoping rule: `add` always carries
  `project:<p>` at index 2. `list` and `search` put `project:<p>` first,
  ahead of every filter token, unless `all_projects` is `Some(true)`.
- **Command line and dispatch** (`server.dfy`, module `Server`). The global
  options in front of every vector (`rc.confirmation=no`, then
  `rc.data.location=<dir>` when a data directory is configured), and each
  handler's response once the process has finished.
- **Result interpreter** (`interpreter.dfy`, module `Interpreter`). The
  classification in `run` of trimmed standard output and error and the
  exit flag into success text or an error message. On top of it,
  `list_tasks` and `search_tasks` turn every error and every empty text
  into "No tasks found." / "No matching tasks.".
- **`created_id`** (`createdid.dfy`, module `CreatedId`). The helper that
  reads a new task's id out of "Created task 5.".

Supporting modules:

- `Wrappers` defines `Option` and `Result`.
- `Requests` defines the request types, plus a `Request` union that stands
  in for the tool router.
- `Text` models Rust's `char::is_whitespace`, `split_whitespace`, `trim`
  and `trim_end_matches`. The whitespace predicate lists the characters of
  the Unicode `White_Space` property, which is what `char::is_whitespace`
  tests. Splitting and trimming are therefore modelled character for
  character.
- `Decode` holds inverse readings of the compiled vectors. They are not
  part of the server. They show that the compiler keeps what it must: an
  `add` vector determines its request, and an id-based vector determines
  its tool, id and payload.

The process itself is an input. `ProcessOutcome` records standard output,
standard error, the success flag and the display text of the exit status.

`created_id` takes the third whitespace-separated word, whatever the
first two words are, strips only trailing `.` and falls back to `"1"`
when there is no third word (src/main.rs:385-388).

## Model

| member | source | states |
|---|---|---|
| Text.SplitWhitespace | src/main.rs:194-196 | every token of a split filter is a non-empty, whitespace-free word, and the tokens concatenate to exactly the filter's non-whitespace characters in their original order |
| Text.SplitEmptyIffBlank | src/main.rs:194-196 | a filter or modification string yields no tokens exactly when it is blank |
| Text.SplitAtWhitespace | src/main.rs:226-228 | splitting at any whitespace character splits the two sides independently and concatenates the results |
| Text.SplitWord | src/main.rs:226-228 | a non-empty whitespace-free string splits into itself alone |
| Text.SplitJoin | src/main.rs:266 | words joined by single spaces split back into exactly those words |
| Text.Trim | src/main.rs:107-108 | trimming returns the slice of the stream after its leading whitespace that leaves only whitespace behind; it is empty exactly when the stream is blank, and otherwise starts and ends with a non-whitespace character |
| Text.TrimIdempotent | src/main.rs:107-108 | trimming a trimmed stream changes nothing |
| Text.TrimEndBy | src/main.rs:388 | trailing-character stripping leaves a prefix of the input, removes only characters of the given kind, and leaves none of them at the end |
| Compiler.ScopeTokens | src/main.rs:191-193 | the scoping prefix is empty exactly when `all_projects` is `Some(true)`; absent or `Some(false)` both give the single `project:<p>` token |
| Compiler.TagTokens | src/main.rs:167-171 | one `+tag` token per tag, at the tag's own position, in caller order |
| Compiler.AddArgs | src/main.rs:153-171 | the add vector begins `add`, description, `project:<p>`, so the project is always at index 2; its length is 3 + the number of present optional attributes + the number of tags; the tags fill the tail in order |
| Compiler.ListArgs | src/main.rs:189-197 | the last token is the report or `next`; unless `all_projects` is `Some(true)`, token 0 is `project:<p>` and the filter tokens follow it; with `Some(true)` the vector is the filter tokens followed by the report |
| Compiler.RegexToken | src/main.rs:229 | the regex token is the pattern verbatim between two slashes, with no escaping |
| Compiler.SearchArgs | src/main.rs:221-230 | the vector always ends with the regex token and `list`; unless `all_projects` is `Some(true)` it starts with `project:<p>` followed by the filter tokens |
| Compiler.ModifyArgs | src/main.rs:265-266 | the modify vector starts with the id and `modify`; the remaining tokens are non-empty whitespace-free words that concatenate to the modifications with whitespace removed |
| Compiler.AllProjectsIgnoresProject | src/main.rs:223-225 | with `all_projects == Some(true)`, the list and search vectors do not depend on the project field |
| Compiler.ScopedProjectsStayApart | src/main.rs:191-192 | without the override, two list (or search) requests that differ only in project differ in token 0, and only then |
| Compiler.ModifyWordsRoundTrip | src/main.rs:265-266 | a modification string of space-separated words reaches the command as exactly those words after `id modify` |
| Decode.AddRoundTrip | src/main.rs:153-171 | decoding an add vector recovers the request: description, project, each attribute value and the tags, verbatim; an empty tag list reads as an absent one |
| Decode.TaskCommandRoundTrip | src/main.rs:253-301 | the get/modify/done/delete/annotate vectors name their tool by the verb at index 1, keep the id as token 0 unparsed and the note as one token, and determine the request up to the spacing of the modifications |
| Interpreter.Run | src/main.rs:107-121 | run fails exactly when the exit was unsuccessful and stdout is blank; the error is the trimmed stderr, or the status message when stderr is blank, and is never empty; otherwise the text is the trimmed stdout, or the trimmed stderr when stdout is blank |
| Interpreter.RunEmptyText | src/main.rs:110-121 | run succeeds with empty text exactly when the process succeeded and both streams are blank |
| Interpreter.RunTextIsTrimmed | src/main.rs:107-121 | success text, and an error message taken from stderr, have no leading or trailing whitespace |
| Interpreter.ReportText | src/main.rs:200-210 | the softened report text is never empty; it is the fixed message when stdout is blank and either the process failed or stderr is blank too, and otherwise it is the trimmed stream run chose |
| Interpreter.ListText | src/main.rs:200-210 | `list_tasks` text is never empty; it is "No tasks found." when stdout is blank and the process failed or stderr is blank too, otherwise the trimmed stdout, or the trimmed stderr when stdout is blank |
| Interpreter.SearchText | src/main.rs:233-243 | `search_tasks` text is never empty; it is "No matching tasks." when stdout is blank and the process failed or stderr is blank too, otherwise the trimmed stdout, or the trimmed stderr when stdout is blank |
| Server.CommandLine | src/main.rs:95-100 | the full command line is `rc.confirmation=no`, then `rc.data.location=<dir>` only when a data directory is configured, then the request's arguments unchanged |
| Server.Respond | src/main.rs:174-303 | list and search never fail: list answers with the report text softened to "No tasks found." and search with the one softened to "No matching tasks.", so the text is never empty; every other tool returns exactly what run returns, error included |
| Server.RespondErrIff | src/main.rs:110-121 | a tool call is an error exactly when it is not list or search, the process failed, and stdout is blank |
| Server.ScopingInvariant | src/main.rs:153-230 | every add, and every list or search without the override, carries `project:<p>` right after the global options (past `add <description>` for an add), and list/search filter tokens come after it |
| CreatedId.CreatedId | src/main.rs:383-390 | with fewer than three words the id is `"1"`; otherwise it is the third word with its trailing full stops removed, all of them and nothing else |
| CreatedId.CreatedIdOfReport | src/main.rs:382-390 | for two leading words, an id not ending in a full stop, any number of full stops, then nothing or whitespace and more text, the helper returns the id exactly |
| CreatedId.CreatedTaskFive | src/main.rs:382 | "Created task 5." gives "5" |

## Left out

- Spawning the `task` process, awaiting it, and the "Failed to run task" error when it cannot be started (src/main.rs:102-105). These are I/O. The finished process is an input `ProcessOutcome`.
- Decoding the output bytes with `String::from_utf8_lossy` (src/main.rs:107-108). Standard output and error are taken as already-decoded strings.
- The display text of `ExitStatus`. It is an opaque `statusText` inside the message "task exited with status ...".
- Rendering the data directory path with `dir.display()`. The directory is given as a string.
- The MCP transport and routing: the `rmcp` macros, `get_info`, serde/schemars derives, tracing setup and `main`. Wrapping text in `CallToolResult::success` is modelled as `Ok(text)`, and an `McpError` as `Err(message)`. The `Request` union and `Compile`/`Respond` stand in for the tool router.
- What the integration tests claim about Taskwarrior itself: completed or deleted tasks leaving reports, filters matching, projects being stored, annotations appearing. These are properties of the external tool, not of this code.
- How Taskwarrior parses a `/pattern/` token that contains `/`. The model keeps the pattern verbatim between the slashes, as the code does (`Compiler.RegexToken`), and goes no further.
- Compiler.GetArgs, Compiler.CompleteArgs, Compiler.DeleteArgs and Compiler.AnnotateArgs carry no contract of their own. Their fixed shapes are stated by `Decode.TaskCommandRoundTrip`.
