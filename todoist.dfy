/**
 * The Todoist client: the priority mapping, name lookups over fetched catalogs,
 * the request body of a task creation, and creation one task at a time with
 * every failure captured in that task's result.
 *
 * The HTTP layer is not modelled: a `TodoistClient` carries the API token set
 * at construction and, for each kind of request, the answer the remote gives.
 */
module Todoist {
  import opened Wrappers
  import opened Text

  /** A task to be created remotely; field defaults as the source's dataclass has them. */
  datatype TodoistTask = TodoistTask(
    content: string,
    projectId: Option<string>,
    sectionId: Option<string>,
    parentId: Option<string>,
    order: Option<int>,
    labels: Option<seq<string>>,
    priority: int,
    dueString: Option<string>,
    dueDate: Option<string>,
    dueDatetime: Option<string>,
    dueLang: string,
    description: Option<string>)

  datatype TodoistProject = TodoistProject(id: string, name: string, color: string, isShared: bool, order: int)

  datatype TodoistSection = TodoistSection(id: string, name: string, projectId: string, order: int)

  /** A value of the JSON request body. */
  datatype FieldValue = Str(s: string) | Int(n: int) | StrList(items: seq<string>)

  /** The keys of the JSON request body; `FieldName` gives each one's wire name. */
  datatype Field =
    | Content | Priority | ProjectId | SectionId | ParentId | Order | Labels
    | DueString | DueDate | DueDatetime | Description

  function FieldName(f: Field): string {
    match f
    case Content => "content"
    case Priority => "priority"
    case ProjectId => "project_id"
    case SectionId => "section_id"
    case ParentId => "parent_id"
    case Order => "order"
    case Labels => "labels"
    case DueString => "due_string"
    case DueDate => "due_date"
    case DueDatetime => "due_datetime"
    case Description => "description"
  }

  type RequestBody = map<Field, FieldValue>

  /** The answer to a listing request: the decoded items, or any failure. */
  datatype Listing<T> = Listed(items: seq<T>) | ListFailed(error: string)

  /** The answer to a task creation request. */
  datatype PostReply = Posted(id: string, content: string, url: string) | PostFailed(error: string)

  /**
   * The client: its API token (`None` when the environment gave none) and the
   * remote's answers to listing projects, listing sections (by the project
   * filter sent, if any) and creating a task from a request body.
   */
  datatype TodoistClient = TodoistClient(
    apiToken: Option<string>,
    projects: Listing<TodoistProject>,
    sections: Option<string> -> Listing<TodoistSection>,
    postTask: RequestBody -> PostReply)

  /** The outcome of one `create_task` call, one variant per shape of its result dictionary. */
  datatype CreateResult =
    | Created(taskId: string, content: string, url: string)
    | Simulated(taskId: string, content: string)
    | Failed(error: string, content: string)
  {
    /** The `success` entry of the result. */
    predicate Success() {
      !Failed?
    }
  }

  const MISSING_TOKEN_ERROR := "Todoist API token not available"
  const DRY_RUN_ID := "dry-run-id"
  const DEFAULT_DUE_LANG := "en"

  /** Names compare equal ignoring case. */
  predicate SameName(a: string, b: string) {
    Lower(a) == Lower(b)
  }

  /** `get_projects`: the catalog, or `[]` on any failure, a missing token included. */
  function GetProjects(client: TodoistClient): (ps: seq<TodoistProject>)
    ensures !Truthy(client.apiToken) || client.projects.ListFailed? ==> ps == []
    ensures Truthy(client.apiToken) && client.projects.Listed? ==> ps == client.projects.items
  {
    if !Truthy(client.apiToken) then []
    else
      match client.projects
      case Listed(items) => items
      case ListFailed(_) => []
  }

  /** `get_sections`: the sections (filtered remotely by project when one is given), or `[]` on any failure. */
  function GetSections(client: TodoistClient, projectId: Option<string>): (ss: seq<TodoistSection>)
    ensures var filter := if Truthy(projectId) then projectId else None;
      && (!Truthy(client.apiToken) || client.sections(filter).ListFailed? ==> ss == [])
      && (Truthy(client.apiToken) && client.sections(filter).Listed? ==> ss == client.sections(filter).items)
  {
    var filter := if Truthy(projectId) then projectId else None;
    if !Truthy(client.apiToken) then []
    else
      match client.sections(filter)
      case Listed(items) => items
      case ListFailed(_) => []
  }

  /** The first element whose name, as `nameOf` reads it, equals `name` ignoring case, if any. */
  function FirstNamed<T>(xs: seq<T>, nameOf: T -> string, name: string): (r: Option<T>)
    ensures r.None? <==> forall i | 0 <= i < |xs| :: !SameName(nameOf(xs[i]), name)
    ensures r.Some? ==> exists k | 0 <= k < |xs| ::
      && xs[k] == r.value
      && SameName(nameOf(xs[k]), name)
      && forall j | 0 <= j < k :: !SameName(nameOf(xs[j]), name)
    decreases |xs|
  {
    if xs == [] then None
    else if SameName(nameOf(xs[0]), name) then Some(xs[0])
    else
      var r := FirstNamed(xs[1..], nameOf, name);
      assert forall i | 1 <= i < |xs| :: xs[1..][i - 1] == xs[i];
      r
  }

  /** `find_section_by_name`: fetch the project's sections, then take the first one with that name. */
  function FindSectionByName(client: TodoistClient, sectionName: string, projectId: string): (r: Option<TodoistSection>)
    ensures var ss := GetSections(client, Some(projectId));
      && (r.None? <==> forall i | 0 <= i < |ss| :: !SameName(ss[i].name, sectionName))
      && (r.Some? ==> exists k | 0 <= k < |ss| ::
            && ss[k] == r.value && SameName(ss[k].name, sectionName)
            && forall j | 0 <= j < k :: !SameName(ss[j].name, sectionName))
  {
    FirstNamed(GetSections(client, Some(projectId)), (s: TodoistSection) => s.name, sectionName)
  }

  /** `find_project_by_name`: fetch the catalog, then take the first project with that name. */
  function FindProjectByName(client: TodoistClient, projectName: string): (r: Option<TodoistProject>)
    ensures var ps := GetProjects(client);
      && (r.None? <==> forall i | 0 <= i < |ps| :: !SameName(ps[i].name, projectName))
      && (r.Some? ==> exists k | 0 <= k < |ps| ::
            && ps[k] == r.value && SameName(ps[k].name, projectName)
            && forall j | 0 <= j < k :: !SameName(ps[j].name, projectName))
  {
    FirstNamed(GetProjects(client), (p: TodoistProject) => p.name, projectName)
  }

  /** `map_priority_to_todoist`: a table lookup with `1` for every level not in the table. */
  function MapPriorityToTodoist(level: string): (n: int)
    ensures 1 <= n <= 4
    ensures n == 4 <==> level == "P1"
    ensures n == 3 <==> level == "P2"
    ensures n == 2 <==> level == "P3"
    ensures n == 1 <==> level !in {"P1", "P2", "P3"}
  {
    var mapping := map["P1" := 4, "P2" := 3, "P3" := 2, "P4" := 1];
    if level in mapping then mapping[level] else 1
  }

  /** How many of the three due fields a request body carries. */
  function DueFieldCount(body: RequestBody): nat {
    (if DueString in body then 1 else 0)
    + (if DueDate in body then 1 else 0)
    + (if DueDatetime in body then 1 else 0)
  }

  /** Every key a request body may carry. */
  const ALL_FIELDS: set<Field> :=
    {Content, Priority, ProjectId, SectionId, ParentId, Order, Labels,
     DueString, DueDate, DueDatetime, Description}

  /**
   * Whether `create_task` puts field `f` into the request body: content and
   * priority always, every other field only when truthy, and of the three due
   * fields only the first truthy one in the order due string, due date, due datetime.
   */
  predicate Sends(task: TodoistTask, f: Field) {
    match f
    case Content => true
    case Priority => true
    case ProjectId => Truthy(task.projectId)
    case SectionId => Truthy(task.sectionId)
    case ParentId => Truthy(task.parentId)
    case Order => task.order.Some? && task.order.value != 0
    case Labels => task.labels.Some? && task.labels.value != []
    case DueString => Truthy(task.dueString)
    case DueDate => !Truthy(task.dueString) && Truthy(task.dueDate)
    case DueDatetime => !Truthy(task.dueString) && !Truthy(task.dueDate) && Truthy(task.dueDatetime)
    case Description => Truthy(task.description)
  }

  /** The value `create_task` sends for field `f`, when it sends it. */
  function FieldOf(task: TodoistTask, f: Field): FieldValue
    requires Sends(task, f)
  {
    match f
    case Content => Str(task.content)
    case Priority => Int(task.priority)
    case ProjectId => Str(task.projectId.value)
    case SectionId => Str(task.sectionId.value)
    case ParentId => Str(task.parentId.value)
    case Order => Int(task.order.value)
    case Labels => StrList(task.labels.value)
    case DueString => Str(task.dueString.value)
    case DueDate => Str(task.dueDate.value)
    case DueDatetime => Str(task.dueDatetime.value)
    case Description => Str(task.description.value)
  }

  /** The request body `create_task` sends: exactly the fields it sends, with their values. */
  function TaskData(task: TodoistTask): (body: RequestBody)
    ensures forall f :: f in body <==> Sends(task, f)
    ensures forall f | f in body :: body[f] == FieldOf(task, f)
  {
    map f | f in ALL_FIELDS && Sends(task, f) :: FieldOf(task, f)
  }

  /**
   * The request body always names the task's content and priority, carries at
   * most one due field, and carries a due field whenever the task has a truthy one.
   */
  lemma TaskDataShape(task: TodoistTask)
    ensures TaskData(task)[Content] == Str(task.content)
    ensures TaskData(task)[Priority] == Int(task.priority)
    ensures DueFieldCount(TaskData(task)) <= 1
    ensures DueFieldCount(TaskData(task)) == 1
        <==> Truthy(task.dueString) || Truthy(task.dueDate) || Truthy(task.dueDatetime)
  {
    var body := TaskData(task);
    assert Content in body && Priority in body;
  }

  /**
   * What `create_task` returns. A dry run answers without a request; otherwise a
   * missing token or a failed request yields a failure carrying the task's content,
   * and a created task reports the remote's id, content and URL.
   */
  function CreateTaskResult(client: TodoistClient, task: TodoistTask, dryRun: bool): (r: CreateResult)
    ensures dryRun ==> r == Simulated(DRY_RUN_ID, task.content)
    ensures !dryRun && !Truthy(client.apiToken) ==> r == Failed(MISSING_TOKEN_ERROR, task.content)
    ensures r.Success() <==> dryRun || (Truthy(client.apiToken) && client.postTask(TaskData(task)).Posted?)
    ensures !r.Created? ==> r.content == task.content
    ensures r.Created? ==> r == Created(client.postTask(TaskData(task)).id,
                                        client.postTask(TaskData(task)).content,
                                        client.postTask(TaskData(task)).url)
    ensures r.Failed? && Truthy(client.apiToken) ==> r.error == client.postTask(TaskData(task)).error
  {
    if dryRun then Simulated(DRY_RUN_ID, task.content)
    else if !Truthy(client.apiToken) then Failed(MISSING_TOKEN_ERROR, task.content)
    else
      match client.postTask(TaskData(task))
      case Posted(id, content, url) => Created(id, content, url)
      case PostFailed(error) => Failed(error, task.content)
  }

  /** `create_task`: answers a dry run at once; otherwise checks the token, builds the request body and posts it. */
  method CreateTask(client: TodoistClient, task: TodoistTask, dryRun: bool) returns (r: CreateResult)
    ensures r == CreateTaskResult(client, task, dryRun)
  {
    if dryRun {
      return Simulated(DRY_RUN_ID, task.content);
    }
    var taskData := TaskData(task);
    if !Truthy(client.apiToken) {
      return Failed(MISSING_TOKEN_ERROR, task.content);
    }
    match client.postTask(taskData)
    case Posted(id, content, url) =>
      r := Created(id, content, url);
    case PostFailed(error) =>
      r := Failed(error, task.content);
  }

  /**
   * `create_multiple_tasks`: one result per task, in task order; a failed
   * creation is recorded and the batch goes on.
   */
  method CreateMultipleTasks(client: TodoistClient, tasks: seq<TodoistTask>, dryRun: bool)
    returns (results: seq<CreateResult>)
    ensures |results| == |tasks|
    ensures forall i | 0 <= i < |tasks| :: results[i] == CreateTaskResult(client, tasks[i], dryRun)
  {
    results := [];
    for i := 0 to |tasks|
      invariant |results| == i
      invariant forall j | 0 <= j < i :: results[j] == CreateTaskResult(client, tasks[j], dryRun)
    {
      var result := CreateTask(client, tasks[i], dryRun);
      results := results + [result];
    }
  }
}
