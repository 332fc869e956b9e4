/**
 * Publishing extracted tasks to Todoist: flagged tasks are held back unless
 * the run is a dry run, each remaining task is placed in a project (by exact
 * name, else by a case-insensitive containment match) and in that project's
 * "backlog" section when it has one, and the converted tasks are created in
 * one batch.
 */
module Publishing {
  import opened Wrappers
  import opened Text
  import opened TaskModel
  import opened Todoist

  const BACKLOG := "backlog"
  const CONTEXT_PREFIX := "Context: "
  const EXTRACTED_FROM := "Extracted from: task_extractor agent"
  const FLAGGED_PREFIX := "⚠️ Flagged: "
  const DESCRIPTION_SEPARATOR := "\n"

  /** A dictionary from project names to ids, as its items in insertion order. */
  type ProjectMap = seq<(string, string)>

  /** The names a project map holds, in order. */
  function Keys(m: ProjectMap): (ks: seq<string>)
    ensures |ks| == |m| && forall i | 0 <= i < |m| :: ks[i] == m[i].0
  {
    seq(|m|, i requires 0 <= i < |m| => m[i].0)
  }

  /** No name appears twice. */
  predicate UniqueKeys(m: ProjectMap) {
    forall i, j | 0 <= i < j < |m| :: m[i].0 != m[j].0
  }

  /** `d[name] = id`: an existing name keeps its position and takes the new id; a new name goes last. */
  function Put(m: ProjectMap, name: string, id: string): (m': ProjectMap)
    ensures |m'| == if name in Keys(m) then |m| else |m| + 1
    ensures forall i | 0 <= i < |m| :: m'[i].0 == m[i].0
    ensures forall i | 0 <= i < |m| && m[i].0 != name :: m'[i] == m[i]
    ensures (name, id) in m'
    decreases |m|
  {
    if m == [] then [(name, id)]
    else if m[0].0 == name then [(name, id)] + m[1..]
    else [m[0]] + Put(m[1..], name, id)
  }

  /** The value of `name` in the map, if it is a key. */
  function Lookup(m: ProjectMap, name: string): (v: Option<string>)
    ensures v.None? <==> name !in Keys(m)
    decreases |m|
  {
    if m == [] then None
    else if m[0].0 == name then Some(m[0].1)
    else Lookup(m[1..], name)
  }

  /** `{p.name: p.id for p in projects}`. */
  function BuildProjectMap(projects: seq<TodoistProject>): ProjectMap
    decreases |projects|
  {
    if projects == [] then []
    else
      var last := projects[|projects| - 1];
      Put(BuildProjectMap(projects[..|projects| - 1]), last.name, last.id)
  }

  /** The id of the last project carrying `name`: the reference meaning of the dictionary lookup. */
  function LastIdNamed(projects: seq<TodoistProject>, name: string): (v: Option<string>)
    ensures v.None? <==> forall i | 0 <= i < |projects| :: projects[i].name != name
    decreases |projects|
  {
    if projects == [] then None
    else if projects[|projects| - 1].name == name then Some(projects[|projects| - 1].id)
    else LastIdNamed(projects[..|projects| - 1], name)
  }

  /** Putting a name keeps the keys, adding the name last when it is new. */
  lemma {:induction false} PutKeys(m: ProjectMap, name: string, id: string)
    ensures Keys(Put(m, name, id)) == if name in Keys(m) then Keys(m) else Keys(m) + [name]
    decreases |m|
  {
    if m != [] && m[0].0 != name {
      PutKeys(m[1..], name, id);
      assert Keys(m) == [m[0].0] + Keys(m[1..]);
      assert Keys(Put(m, name, id)) == [m[0].0] + Keys(Put(m[1..], name, id));
    }
  }

  /** Putting a name keeps the names unique. */
  lemma PutUnique(m: ProjectMap, name: string, id: string)
    requires UniqueKeys(m)
    ensures UniqueKeys(Put(m, name, id))
  {
    PutKeys(m, name, id);
    var ks := Keys(Put(m, name, id));
    assert forall i, j | 0 <= i < j < |ks| :: ks[i] != ks[j];
  }

  /** Looking a name up after putting it gives the new id; other names keep their values. */
  lemma {:induction false} LookupPut(m: ProjectMap, name: string, id: string, key: string)
    ensures Lookup(Put(m, name, id), key) == if key == name then Some(id) else Lookup(m, key)
    decreases |m|
  {
    if m != [] && m[0].0 != name {
      LookupPut(m[1..], name, id, key);
      assert Put(m, name, id) == [m[0]] + Put(m[1..], name, id);
      assert ([m[0]] + Put(m[1..], name, id))[1..] == Put(m[1..], name, id);
    }
  }

  /**
   * The project map behaves as the dictionary: each name is a key once, and its
   * value is the id of the last project carrying that name.
   */
  lemma {:induction false} ProjectMapLookup(projects: seq<TodoistProject>, name: string)
    ensures UniqueKeys(BuildProjectMap(projects))
    ensures Lookup(BuildProjectMap(projects), name) == LastIdNamed(projects, name)
    decreases |projects|
  {
    if projects != [] {
      var init := projects[..|projects| - 1];
      var last := projects[|projects| - 1];
      ProjectMapLookup(init, name);
      PutUnique(BuildProjectMap(init), last.name, last.id);
      LookupPut(BuildProjectMap(init), last.name, last.id, name);
    }
  }

  /** Python's fuzzy test: either lower-cased name occurs in the other. */
  predicate Resembles(project: string, name: string) {
    Contains(Lower(name), Lower(project)) || Contains(Lower(project), Lower(name))
  }

  /** The id of the first entry, in map order, whose name resembles `project`. */
  function FuzzyMatch(m: ProjectMap, project: string): (id: Option<string>)
    ensures id.None? <==> forall i | 0 <= i < |m| :: !Resembles(project, m[i].0)
    ensures id.Some? ==> exists k | 0 <= k < |m| ::
      && m[k].1 == id.value && Resembles(project, m[k].0)
      && forall j | 0 <= j < k :: !Resembles(project, m[j].0)
    decreases |m|
  {
    if m == [] then None
    else if Resembles(project, m[0].0) then Some(m[0].1)
    else
      var r := FuzzyMatch(m[1..], project);
      assert r.Some? ==> exists k | 0 <= k < |m[1..]| ::
        && m[1..][k].1 == r.value && Resembles(project, m[1..][k].0)
        && forall j | 0 <= j < k :: !Resembles(project, m[1..][j].0);
      r
  }

  /** The fuzzy fallback loop: the first resembling entry in map order, then stop. */
  method FindFuzzyProject(m: ProjectMap, project: string) returns (id: Option<string>)
    ensures id == FuzzyMatch(m, project)
  {
    id := None;
    for i := 0 to |m|
      invariant FuzzyMatch(m, project) == FuzzyMatch(m[i..], project)
    {
      if Contains(Lower(m[i].0), Lower(project)) || Contains(Lower(project), Lower(m[i].0)) {
        id := Some(m[i].1);
        return;
      }
      assert m[i..][1..] == m[i + 1..];
    }
  }

  /**
   * The project a task is sent to: none for a task without a project; the
   * exact entry's id when it is non-empty; otherwise the first resembling
   * entry's id, or the exact entry's empty id when nothing resembles.
   */
  function ProjectIdFor(m: ProjectMap, project: Option<string>): (id: Option<string>)
    ensures !Truthy(project) ==> id.None?
    ensures Truthy(project) && Truthy(Lookup(m, project.value)) ==> id == Lookup(m, project.value)
    ensures Truthy(project) && !Truthy(Lookup(m, project.value)) && FuzzyMatch(m, project.value).Some? ==>
      id == FuzzyMatch(m, project.value)
    ensures Truthy(project) && !Truthy(Lookup(m, project.value)) && FuzzyMatch(m, project.value).None? ==>
      id == Lookup(m, project.value)
  {
    if !Truthy(project) then None
    else
      var exact := Lookup(m, project.value);
      if Truthy(exact) then exact
      else
        match FuzzyMatch(m, project.value)
        case Some(fuzzy) => Some(fuzzy)
        case None => exact
  }

  /** Every name resembles itself, so a task naming a project in the map always gets an id. */
  lemma ExactNameIsPlaced(m: ProjectMap, project: string)
    requires project != [] && project in Keys(m)
    ensures ProjectIdFor(m, Some(project)).Some?
  {
    var k :| 0 <= k < |m| && m[k].0 == project;
    assert Resembles(project, m[k].0);
  }

  /** The backlog section of the chosen project, when the project id is non-empty and the project has one. */
  function SectionIdFor(client: TodoistClient, projectId: Option<string>): (id: Option<string>)
    ensures id.Some? ==> Truthy(projectId) && exists k | 0 <= k < |GetSections(client, projectId)| ::
      && GetSections(client, projectId)[k].id == id.value
      && SameName(GetSections(client, projectId)[k].name, BACKLOG)
      && forall j | 0 <= j < k :: !SameName(GetSections(client, projectId)[j].name, BACKLOG)
    ensures Truthy(projectId) && id.None? ==> forall s | s in GetSections(client, projectId) :: !SameName(s.name, BACKLOG)
  {
    if Truthy(projectId) then
      match FindSectionByName(client, BACKLOG, projectId.value)
      case Some(section) => Some(section.id)
      case None => None
    else None
  }

  /** How a Python f-string shows an optional string. */
  function Shown(s: Option<string>): string {
    match s
    case Some(v) => v
    case None => "None"
  }

  /** The description lines: the context if any, the extraction note, and the flag with its reason if flagged. */
  function DescriptionParts(r: TaskRecord): (parts: seq<string>)
    ensures EXTRACTED_FROM in parts
    ensures Truthy(r.context) ==> parts[0] == CONTEXT_PREFIX + r.context.value
    ensures r.requiresConfirmation ==> parts[|parts| - 1] == FLAGGED_PREFIX + Shown(r.confirmationReason)
  {
    (if Truthy(r.context) then [CONTEXT_PREFIX + r.context.value] else [])
    + [EXTRACTED_FROM]
    + (if r.requiresConfirmation then [FLAGGED_PREFIX + Shown(r.confirmationReason)] else [])
  }

  /**
   * The description starts with a context line exactly when the task has a
   * non-empty context, and ends with a flag line exactly when it is flagged;
   * the extraction note sits between them.
   */
  lemma DescriptionLayout(r: TaskRecord)
    ensures var parts := DescriptionParts(r);
      && (Truthy(r.context) <==> parts[0] != EXTRACTED_FROM)
      && (r.requiresConfirmation <==> parts[|parts| - 1] != EXTRACTED_FROM)
      && |parts| == 1 + (if Truthy(r.context) then 1 else 0) + (if r.requiresConfirmation then 1 else 0)
  {
    var parts := DescriptionParts(r);
    assert EXTRACTED_FROM[0] == 'E';
    if Truthy(r.context) {
      assert parts[0][0] == CONTEXT_PREFIX[0] == 'C';
    }
    if r.requiresConfirmation {
      assert parts[|parts| - 1][0] == FLAGGED_PREFIX[0];
      assert FLAGGED_PREFIX[0] != 'E';
    }
  }

  /** The Todoist task built from an extracted task, with every field the source leaves at its default. */
  function ToTodoistTask(client: TodoistClient, m: ProjectMap, r: TaskRecord): TodoistTask {
    var projectId := ProjectIdFor(m, r.project);
    TodoistTask(
      content := r.content,
      projectId := projectId,
      sectionId := SectionIdFor(client, projectId),
      parentId := None,
      order := None,
      labels := None,
      priority := MapPriorityToTodoist(r.priority),
      dueString := r.dueDate,
      dueDate := None,
      dueDatetime := None,
      dueLang := DEFAULT_DUE_LANG,
      description := Some(Join(DESCRIPTION_SEPARATOR, DescriptionParts(r))))
  }

  /**
   * A converted task keeps the content, takes the due date as its due string
   * and the mapped priority, and its description always carries the extraction
   * note, the context when there is one, and the flag with its reason when flagged.
   */
  lemma ConvertedTaskShape(client: TodoistClient, m: ProjectMap, r: TaskRecord)
    ensures var t := ToTodoistTask(client, m, r);
      && t.content == r.content && t.dueString == r.dueDate
      && (t.priority == 4 <==> r.priority == "P1")
      && t.description.Some?
      && Contains(t.description.value, EXTRACTED_FROM)
      && (Truthy(r.context) ==> Contains(t.description.value, CONTEXT_PREFIX + r.context.value))
      && (r.requiresConfirmation ==> Contains(t.description.value, FLAGGED_PREFIX + Shown(r.confirmationReason)))
      && (t.sectionId.Some? ==> Truthy(t.projectId))
  {
    var parts := DescriptionParts(r);
    var k :| 0 <= k < |parts| && parts[k] == EXTRACTED_FROM;
    JoinContainsPart(DESCRIPTION_SEPARATOR, parts, k);
    if Truthy(r.context) {
      JoinContainsPart(DESCRIPTION_SEPARATOR, parts, 0);
    }
    if r.requiresConfirmation {
      JoinContainsPart(DESCRIPTION_SEPARATOR, parts, |parts| - 1);
    }
  }

  /** A task flagged for confirmation is held back, except in a dry run. */
  predicate HeldBack(r: TaskRecord, dryRun: bool) {
    r.requiresConfirmation && !dryRun
  }

  /** The Todoist tasks sent for a list of extracted tasks, in order. */
  function Outgoing(client: TodoistClient, m: ProjectMap, rs: seq<TaskRecord>, dryRun: bool): (ts: seq<TodoistTask>)
    ensures |ts| <= |rs|
    decreases |rs|
  {
    if rs == [] then []
    else
      var last := rs[|rs| - 1];
      Outgoing(client, m, rs[..|rs| - 1], dryRun)
        + (if HeldBack(last, dryRun) then [] else [ToTodoistTask(client, m, last)])
  }

  /** The positions, in order, of the tasks that are not held back. */
  function UnheldPositions(rs: seq<TaskRecord>, dryRun: bool): (ps: seq<int>)
    ensures forall m | 0 <= m < |ps| :: 0 <= ps[m] < |rs|
    decreases |rs|
  {
    if rs == [] then []
    else
      var n := |rs| - 1;
      UnheldPositions(rs[..n], dryRun) + (if HeldBack(rs[n], dryRun) then [] else [n])
  }

  /** The positions increase, and are exactly those of the tasks not held back. */
  lemma {:induction false} UnheldPositionsExact(rs: seq<TaskRecord>, dryRun: bool)
    ensures var ps := UnheldPositions(rs, dryRun);
      && (forall m, n | 0 <= m < n < |ps| :: ps[m] < ps[n])
      && (forall j | 0 <= j < |rs| :: j in ps <==> !HeldBack(rs[j], dryRun))
    decreases |rs|
  {
    if rs != [] {
      var n := |rs| - 1;
      UnheldPositionsExact(rs[..n], dryRun);
      assert n !in UnheldPositions(rs[..n], dryRun);
    }
  }

  /**
   * The tasks sent are the conversions of the tasks at `UnheldPositions`, in
   * that order: with `UnheldPositionsExact`, the skip loop is an in-order filter
   * that sends each task not held back exactly once.
   */
  lemma {:induction false} OutgoingAtPositions(client: TodoistClient, m: ProjectMap, rs: seq<TaskRecord>, dryRun: bool)
    ensures var ps := UnheldPositions(rs, dryRun);
      && |Outgoing(client, m, rs, dryRun)| == |ps|
      && (forall k | 0 <= k < |ps| :: Outgoing(client, m, rs, dryRun)[k] == ToTodoistTask(client, m, rs[ps[k]]))
    decreases |rs|
  {
    if rs != [] {
      var n := |rs| - 1;
      var init := rs[..n];
      OutgoingAtPositions(client, m, init, dryRun);
      var ps := UnheldPositions(init, dryRun);
      var out := Outgoing(client, m, init, dryRun);
      assert forall k | 0 <= k < |ps| :: init[ps[k]] == rs[ps[k]];
      if HeldBack(rs[n], dryRun) {
        assert Outgoing(client, m, rs, dryRun) == out && UnheldPositions(rs, dryRun) == ps;
      } else {
        assert Outgoing(client, m, rs, dryRun) == out + [ToTodoistTask(client, m, rs[n])];
        assert UnheldPositions(rs, dryRun) == ps + [n];
      }
    }
  }

  /**
   * Exactly the tasks not held back are sent: every sent task is the conversion
   * of one that is not held back, every task not held back is sent, and a dry
   * run sends them all.
   */
  lemma {:induction false} OutgoingIsUnheld(client: TodoistClient, m: ProjectMap, rs: seq<TaskRecord>, dryRun: bool)
    ensures forall t | t in Outgoing(client, m, rs, dryRun) ::
      exists r | r in rs :: !HeldBack(r, dryRun) && t == ToTodoistTask(client, m, r)
    ensures forall r | r in rs && !HeldBack(r, dryRun) :: ToTodoistTask(client, m, r) in Outgoing(client, m, rs, dryRun)
    ensures dryRun ==> |Outgoing(client, m, rs, dryRun)| == |rs|
    decreases |rs|
  {
    if rs != [] {
      var init := rs[..|rs| - 1];
      var last := rs[|rs| - 1];
      OutgoingIsUnheld(client, m, init, dryRun);
      assert rs == init + [last];
      forall t | t in Outgoing(client, m, rs, dryRun)
        ensures exists r | r in rs :: !HeldBack(r, dryRun) && t == ToTodoistTask(client, m, r)
      {
        if t in Outgoing(client, m, init, dryRun) {
          var r :| r in init && !HeldBack(r, dryRun) && t == ToTodoistTask(client, m, r);
          assert r in rs;
        } else {
          assert !HeldBack(last, dryRun) && t == ToTodoistTask(client, m, last);
        }
      }
    }
  }

  /** With no flagged task, everything is sent, in order. */
  lemma {:induction false} UnflaggedAllSent(client: TodoistClient, m: ProjectMap, rs: seq<TaskRecord>, dryRun: bool)
    requires forall i | 0 <= i < |rs| :: !rs[i].requiresConfirmation
    ensures Outgoing(client, m, rs, dryRun) == seq(|rs|, i requires 0 <= i < |rs| => ToTodoistTask(client, m, rs[i]))
    decreases |rs|
  {
    if rs != [] {
      UnflaggedAllSent(client, m, rs[..|rs| - 1], dryRun);
    }
  }

  /** The project step of the conversion: exact lookup, then the fuzzy fallback, then the backlog section. */
  method PlaceTask(client: TodoistClient, projectMap: ProjectMap, project: Option<string>)
    returns (projectId: Option<string>, sectionId: Option<string>)
    ensures projectId == ProjectIdFor(projectMap, project)
    ensures sectionId == SectionIdFor(client, projectId)
  {
    projectId := None;
    sectionId := None;
    if project.Some? && project.value != "" {
      if project.value in Keys(projectMap) {
        projectId := Lookup(projectMap, project.value);
      }
      if !(projectId.Some? && projectId.value != "") {
        var fuzzy := FindFuzzyProject(projectMap, project.value);
        if fuzzy.Some? {
          projectId := fuzzy;
        }
      }
      if projectId.Some? && projectId.value != "" {
        var backlog := FindSectionByName(client, BACKLOG, projectId.value);
        if backlog.Some? {
          sectionId := Some(backlog.value.id);
        }
      }
    }
  }

  /** The description step of the conversion. */
  method Describe(task: ExtractedTask) returns (parts: seq<string>)
    ensures parts == DescriptionParts(task.Record())
  {
    parts := [];
    if task.context.Some? && task.context.value != "" {
      parts := parts + [CONTEXT_PREFIX + task.context.value];
    }
    parts := parts + [EXTRACTED_FROM];
    if task.requiresConfirmation {
      parts := parts + [FLAGGED_PREFIX + Shown(task.confirmationReason)];
    }
  }

  /** The body of the conversion loop for one task that is not held back. */
  method ConvertTask(client: TodoistClient, projectMap: ProjectMap, task: ExtractedTask) returns (t: TodoistTask)
    ensures t == ToTodoistTask(client, projectMap, task.Record())
  {
    var projectId, sectionId := PlaceTask(client, projectMap, task.project);
    var parts := Describe(task);
    t := TodoistTask(
      content := task.content,
      projectId := projectId,
      sectionId := sectionId,
      parentId := None,
      order := None,
      labels := None,
      priority := MapPriorityToTodoist(task.priority),
      dueString := task.dueDate,
      dueDate := None,
      dueDatetime := None,
      dueLang := DEFAULT_DUE_LANG,
      description := Some(Join(DESCRIPTION_SEPARATOR, parts)));
  }

  /**
   * `create_todoist_tasks`: nothing for no tasks; otherwise the catalog is
   * fetched once, the tasks not held back are converted in order, and the
   * batch is created, one result per converted task.
   */
  method CreateTodoistTasks(client: TodoistClient, tasks: seq<ExtractedTask>, dryRun: bool)
    returns (results: seq<CreateResult>)
    ensures var sent := Outgoing(client, BuildProjectMap(GetProjects(client)), Records(tasks), dryRun);
      && |results| == |sent|
      && forall i | 0 <= i < |sent| :: results[i] == CreateTaskResult(client, sent[i], dryRun)
  {
    if tasks == [] {
      return [];
    }
    var projects := GetProjects(client);
    var projectMap := BuildProjectMap(projects);
    var todoistTasks: seq<TodoistTask> := [];
    for i := 0 to |tasks|
      invariant todoistTasks == Outgoing(client, projectMap, Records(tasks)[..i], dryRun)
    {
      var task := tasks[i];
      assert Records(tasks)[..i + 1] == Records(tasks)[..i] + [task.Record()];
      if task.requiresConfirmation && !dryRun {
        continue;
      }
      var todoistTask := ConvertTask(client, projectMap, task);
      todoistTasks := todoistTasks + [todoistTask];
    }
    assert Records(tasks)[..|tasks|] == Records(tasks);
    results := CreateMultipleTasks(client, todoistTasks, dryRun);
  }
}
