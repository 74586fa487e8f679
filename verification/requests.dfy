/** The typed tool requests the server accepts (src/main.rs lines 15-82).
    Each request type carries exactly the fields of its Rust struct; the
    optional ones are `Option`s. `Request` is the tagged union the tool
    router dispatches on, one variant per tool. */
module Requests {
  import opened Wrappers

  /** `add_task`: a new task, always filed under `project`. */
  datatype AddTaskRequest = AddTaskRequest(
    description: string,
    project: string,
    due: Option<string>,
    tags: Option<seq<string>>,
    priority: Option<string>,
    wait: Option<string>,
    scheduled: Option<string>)

  /** `list_tasks`: run a report, scoped to `project` unless `allProjects` is `Some(true)`. */
  datatype ListTasksRequest = ListTasksRequest(
    project: string,
    filter: Option<string>,
    report: Option<string>,
    allProjects: Option<bool>)

  /** `search_tasks`: a regex search, scoped like `list_tasks`. */
  datatype SearchTasksRequest = SearchTasksRequest(
    pattern: string,
    project: string,
    filter: Option<string>,
    allProjects: Option<bool>)

  /** `get_task`, `complete_task`, `delete_task`: a task id or UUID, never parsed. */
  datatype TaskIdRequest = TaskIdRequest(id: string)

  /** `modify_task`: space-separated modification tokens for one task. */
  datatype ModifyTaskRequest = ModifyTaskRequest(id: string, modifications: string)

  /** `annotate_task`: a note to attach to one task. */
  datatype AnnotateTaskRequest = AnnotateTaskRequest(id: string, note: string)

  /** One tool invocation, tagged with the tool it is for. */
  datatype Request =
    | AddTask(addReq: AddTaskRequest)
    | ListTasks(listReq: ListTasksRequest)
    | SearchTasks(searchReq: SearchTasksRequest)
    | GetTask(getReq: TaskIdRequest)
    | ModifyTask(modifyReq: ModifyTaskRequest)
    | CompleteTask(completeReq: TaskIdRequest)
    | DeleteTask(deleteReq: TaskIdRequest)
    | AnnotateTask(annotateReq: AnnotateTaskRequest)
  {
    /** The two read-only report tools, whose failures are softened. */
    predicate IsReport() {
      ListTasks? || SearchTasks?
    }
  }
}
