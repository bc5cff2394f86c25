/**
 * The JSON endpoints of tracker/api_views.py. This file is written against its own task
 * schema: statuses `todo`/`in_progress`, an `assigned_to` user, a task that may point at a
 * project and at an application directly, and an `updated_at` stamp. Projects and
 * applications keep the shape of tracker/models.py.
 */
module ApiViews {
  import opened Wrappers
  import opened Seqs
  import opened Text
  import opened Models

  /** A task as api_views.py sees it; `updatedAt` is a clock reading. */
  datatype ApiTask = ApiTask(
    id: int, title: string, description: string, status: string, priority: string,
    projectId: Option<int>, applicationId: Option<int>, assignedTo: Option<int>,
    dueDate: Option<Date>, updatedAt: int)

  datatype ApiDb = ApiDb(projects: seq<Project>, applications: seq<Application>, tasks: seq<ApiTask>)

  /** A JSON value of a request body, as far as these endpoints read it. */
  datatype JsonValue = JNull | JString(text: string) | JNumber(number: int)

  /** The value a character column receives: Django turns a number into its text; null stays null. */
  function CharValue(v: JsonValue): (r: Option<string>)
    ensures r.None? <==> v.JNull?
    ensures v.JString? ==> r == Some(v.text)
    ensures v.JNumber? ==> r == Some(ShowInt(v.number))
  {
    match v
    case JNull => None
    case JString(s) => Some(s)
    case JNumber(n) => Some(ShowInt(n))
  }

  /**
   * The value a user foreign key receives: null, a number, or a string `int()` accepts. The
   * empty string is saved as null, because the key's target field allows no empty strings.
   */
  function ForeignKeyValue(v: JsonValue): (r: Result<Option<int>, string>)
    ensures v.JNull? ==> r == Ok(None)
    ensures v == JString("") ==> r == Ok(None)
    ensures v.JNumber? ==> r == Ok(Some(v.number))
    ensures v.JString? ==> (r.Ok? <==> v.text == [] || ParseInt(v.text).Some?)
    ensures v.JString? && v.text != [] && r.Ok? ==> r.value == ParseInt(v.text)
  {
    match v
    case JNull => Ok(None)
    case JNumber(n) => Ok(Some(n))
    case JString(s) =>
      if s == [] then Ok(None)
      else if ParseInt(s).Some? then Ok(ParseInt(s))
      else Err("expected a number")
  }

  function MatchedIds(rows: map<int, ApiTask>, ids: seq<int>): set<int> {
    set k | k in rows && k in ids
  }

  /** One UPDATE that sets `f` on the matched rows and stamps them with `now`. */
  function UpdateMatched(rows: map<int, ApiTask>, ids: seq<int>, f: ApiTask -> ApiTask): (r: map<int, ApiTask>)
    ensures r.Keys == rows.Keys
    ensures forall k :: k in rows && k !in ids ==> r[k] == rows[k]
    ensures forall k :: k in rows && k in ids ==> r[k] == f(rows[k])
  {
    map k | k in rows :: if k in ids then f(rows[k]) else rows[k]
  }

  /** The response of a bulk update: a success naming the count, or a failure with its HTTP status. */
  datatype BulkUpdateResponse = Updated(message: string) | Failed(httpStatus: int)

  function UpdatedMessage(count: nat): string {
    "Updated " + ShowInt(count) + " tasks"
  }

  /**
   * What `api_task_bulk_update` does to the table: the action names the column; a null
   * status or priority fails the UPDATE once it matches a row; a foreign key that is not a
   * number fails before any row is touched; any other action updates nothing.
   */
  function BulkUpdateOutcome(rows: map<int, ApiTask>, taskIds: seq<int>, action: Option<string>,
                             value: JsonValue, now: int): (r: (map<int, ApiTask>, BulkUpdateResponse))
    ensures r.1.Failed? ==> r.0 == rows && r.1.httpStatus == 400
    ensures r.1.Failed? <==>
      || ((action == Some("status") || action == Some("priority")) && value.JNull? && |MatchedIds(rows, taskIds)| > 0)
      || (action == Some("assigned_to") && ForeignKeyValue(value).Err?)
    ensures r.1.Updated? ==> r.1.message == UpdatedMessage(|MatchedIds(rows, taskIds)|)
    ensures action.None? || action.value !in ["status", "priority", "assigned_to"] ==> r == (rows, Updated(UpdatedMessage(|MatchedIds(rows, taskIds)|)))
    ensures r.0.Keys == rows.Keys
    ensures forall k :: k in rows && k !in taskIds ==> r.0[k] == rows[k]
  {
    var count := |MatchedIds(rows, taskIds)|;
    var ok := Updated(UpdatedMessage(count));
    if action == Some("status") || action == Some("priority") then
      match CharValue(value)
      case None => if count > 0 then (rows, Failed(400)) else (rows, ok)
      case Some(s) =>
        if action == Some("status") then
          (UpdateMatched(rows, taskIds, (t: ApiTask) => t.(status := s, updatedAt := now)), ok)
        else
          (UpdateMatched(rows, taskIds, (t: ApiTask) => t.(priority := s, updatedAt := now)), ok)
    else if action == Some("assigned_to") then
      match ForeignKeyValue(value)
      case Err(_) => (rows, Failed(400))
      case Ok(user) => (UpdateMatched(rows, taskIds, (t: ApiTask) => t.(assignedTo := user, updatedAt := now)), ok)
    else (rows, ok)
  }

  /** The outcome of `api_task_status_update`. */
  datatype StatusResponse = StatusUpdated(status: string) | TaskNotFound | BadRequest

  /** The table of tasks of the API layer, keyed by primary key. */
  class ApiTaskTable {
    var rows: map<int, ApiTask>

    predicate Valid()
      reads this
    {
      forall k :: k in rows ==> rows[k].id == k
    }

    constructor (rows: map<int, ApiTask>)
      requires forall k :: k in rows ==> rows[k].id == k
      ensures Valid() && this.rows == rows
    {
      this.rows := rows;
    }

    /** `api_task_bulk_update` on a parsed body (`task_ids` defaults to the empty list). */
    method BulkUpdate(taskIds: seq<int>, action: Option<string>, value: JsonValue, now: int)
      returns (response: BulkUpdateResponse)
      requires Valid()
      modifies this
      ensures Valid()
      ensures (rows, response) == BulkUpdateOutcome(old(rows), taskIds, action, value, now)
    {
      var outcome := BulkUpdateOutcome(rows, taskIds, action, value, now);
      BulkUpdateKeepsIds(rows, taskIds, action, value, now);
      rows := outcome.0;
      response := outcome.1;
    }

    /**
     * `api_task_status_update`: a missing task is a 404 and a null status a failed save;
     * both change nothing. Otherwise only that task's status and stamp change.
     */
    method StatusUpdate(pk: int, status: JsonValue, now: int) returns (response: StatusResponse)
      requires Valid()
      modifies this
      ensures Valid()
      ensures pk !in old(rows) ==> response == TaskNotFound && rows == old(rows)
      ensures pk in old(rows) && status.JNull? ==> response == BadRequest && rows == old(rows)
      ensures pk in old(rows) && !status.JNull? ==>
        var s := CharValue(status).value;
        && response == StatusUpdated(s)
        && rows == old(rows)[pk := old(rows)[pk].(status := s, updatedAt := now)]
    {
      if pk !in rows {
        return TaskNotFound;
      }
      var newStatus := CharValue(status);
      if newStatus.None? {
        return BadRequest;
      }
      rows := rows[pk := rows[pk].(status := newStatus.value, updatedAt := now)];
      response := StatusUpdated(newStatus.value);
    }
  }

  lemma BulkUpdateKeepsIds(rows: map<int, ApiTask>, taskIds: seq<int>, action: Option<string>, value: JsonValue, now: int)
    requires forall k :: k in rows ==> rows[k].id == k
    ensures var r := BulkUpdateOutcome(rows, taskIds, action, value, now).0;
      forall k :: k in r ==> r[k].id == k
  {
  }

  /** Only the column the action names, and the stamp, change on a matched task. */
  lemma BulkUpdateOneField(rows: map<int, ApiTask>, taskIds: seq<int>, action: Option<string>,
                           value: JsonValue, now: int, k: int)
    requires k in rows && k in taskIds
    requires BulkUpdateOutcome(rows, taskIds, action, value, now).1.Updated?
    ensures var t, u := rows[k], BulkUpdateOutcome(rows, taskIds, action, value, now).0[k];
      && (action == Some("status") ==> CharValue(value).Some? && u == t.(status := CharValue(value).value, updatedAt := now))
      && (action == Some("priority") ==> CharValue(value).Some? && u == t.(priority := CharValue(value).value, updatedAt := now))
      && (action == Some("assigned_to") ==> ForeignKeyValue(value).Ok? && u == t.(assignedTo := ForeignKeyValue(value).value, updatedAt := now))
  {
    assert k in MatchedIds(rows, taskIds);
  }

  /** An empty `assigned_to` string unassigns every matched task, and the update succeeds. */
  lemma BulkUnassignByEmptyString(rows: map<int, ApiTask>, taskIds: seq<int>, now: int, k: int)
    requires k in rows && k in taskIds
    ensures var r := BulkUpdateOutcome(rows, taskIds, Some("assigned_to"), JString(""), now);
      r.1.Updated? && r.0[k] == rows[k].(assignedTo := None, updatedAt := now)
  {
  }

  // ---------------------------------------------------------------------------
  // Search
  // ---------------------------------------------------------------------------

  /**
   * `task.project.name if task.project else None`: the name behind an optional project key;
   * a key no project has reads as no project.
   */
  function ProjectNameOf(db: ApiDb, id: Option<int>): (r: Option<string>)
    ensures id.None? ==> r.None?
    ensures r.Some? ==> exists p :: p in db.projects && Some(p.id) == id && p.name == r.value
    ensures id.Some? && (exists p :: p in db.projects && p.id == id.value) ==> r.Some?
  {
    if id.None? then None
    else
      match FindBy(db.projects, ProjectPk, id.value)
      case None => None
      case Some(p) => Some(p.name)
  }

  /** The same for an optional application key. */
  function AppNameOf(db: ApiDb, id: Option<int>): (r: Option<string>)
    ensures id.None? ==> r.None?
    ensures r.Some? ==> exists a :: a in db.applications && Some(a.id) == id && a.name == r.value
    ensures id.Some? && (exists a :: a in db.applications && a.id == id.value) ==> r.Some?
  {
    if id.None? then None
    else
      match FindBy(db.applications, AppPk, id.value)
      case None => None
      case Some(a) => Some(a.name)
  }

  /**
   * One entry of `api_search`'s `results`. The kind-specific keys are optional: `status` for
   * projects and tasks, `project` (the project's name) for applications, `priority` for tasks.
   */
  datatype SearchHit = SearchHit(kind: string, id: int, title: string, description: string, url: string,
                                 status: Option<string>, project: Option<string>, priority: Option<string>)

  const ApiSearchCap: nat := 5

  function ProjectHit(p: Project): SearchHit {
    SearchHit("project", p.id, p.name, Truncate(p.description, 100), "/tracker/projects/" + ShowInt(p.id) + "/",
              Some(p.status), None, None)
  }

  function AppHit(db: ApiDb, a: Application): SearchHit {
    SearchHit("application", a.id, a.name, Truncate(a.description, 100), "/tracker/apps/" + ShowInt(a.id) + "/",
              None, ProjectNameOf(db, Some(a.projectId)), None)
  }

  function TaskHit(t: ApiTask): SearchHit {
    SearchHit("task", t.id, t.title, Truncate(t.description, 100), "/tracker/tasks/" + ShowInt(t.id) + "/",
              Some(t.status), None, Some(t.priority))
  }

  /** The project entries, one per project, in order. */
  function ProjectHits(ps: seq<Project>): (r: seq<SearchHit>)
    ensures |r| == |ps| && forall i :: 0 <= i < |ps| ==> r[i] == ProjectHit(ps[i])
  {
    if ps == [] then [] else ProjectHits(ps[..|ps| - 1]) + [ProjectHit(ps[|ps| - 1])]
  }

  /** The application entries, one per application, in order. */
  function AppHits(db: ApiDb, as_: seq<Application>): (r: seq<SearchHit>)
    ensures |r| == |as_| && forall i :: 0 <= i < |as_| ==> r[i] == AppHit(db, as_[i])
  {
    if as_ == [] then [] else AppHits(db, as_[..|as_| - 1]) + [AppHit(db, as_[|as_| - 1])]
  }

  /** The task entries, one per task, in order. */
  function TaskHits(ts: seq<ApiTask>): (r: seq<SearchHit>)
    ensures |r| == |ts| && forall i :: 0 <= i < |ts| ==> r[i] == TaskHit(ts[i])
  {
    if ts == [] then [] else TaskHits(ts[..|ts| - 1]) + [TaskHit(ts[|ts| - 1])]
  }

  lemma {:induction false} ProjectHitsShape(ps: seq<Project>, h: SearchHit)
    requires h in ProjectHits(ps)
    ensures h.kind == "project" && |h.description| <= 100
    decreases |ps|
  {
    if h != ProjectHit(ps[|ps| - 1]) {
      ProjectHitsShape(ps[..|ps| - 1], h);
    }
  }

  lemma {:induction false} AppHitsShape(db: ApiDb, as_: seq<Application>, h: SearchHit)
    requires h in AppHits(db, as_)
    ensures h.kind == "application" && |h.description| <= 100
    decreases |as_|
  {
    if h != AppHit(db, as_[|as_| - 1]) {
      AppHitsShape(db, as_[..|as_| - 1], h);
    }
  }

  lemma {:induction false} TaskHitsShape(ts: seq<ApiTask>, h: SearchHit)
    requires h in TaskHits(ts)
    ensures h.kind == "task" && |h.description| <= 100
    decreases |ts|
  {
    if h != TaskHit(ts[|ts| - 1]) {
      TaskHitsShape(ts[..|ts| - 1], h);
    }
  }

  function MatchingProjects(db: ApiDb, q: string): seq<Project> {
    Take(Filter(db.projects, (p: Project) => IContains(p.name, q) || IContains(p.description, q)), ApiSearchCap)
  }

  function MatchingApps(db: ApiDb, q: string): seq<Application> {
    Take(Filter(db.applications, (a: Application) => IContains(a.name, q) || IContains(a.description, q)), ApiSearchCap)
  }

  function MatchingTasks(db: ApiDb, q: string): seq<ApiTask> {
    Take(Filter(db.tasks, (t: ApiTask) => IContains(t.title, q) || IContains(t.description, q)), ApiSearchCap)
  }

  /** What `api_search` returns for a query, blank or not. */
  function ApiSearchResults(db: ApiDb, rawQuery: string): seq<SearchHit> {
    var q := Strip(rawQuery);
    if q == [] then []
    else ProjectHits(MatchingProjects(db, q)) + AppHits(db, MatchingApps(db, q)) + TaskHits(MatchingTasks(db, q))
  }

  /**
   * `api_search`: nothing for a blank query; otherwise up to five projects, then up to five
   * applications, then up to five tasks, each description cut to 100 characters.
   */
  method ApiSearch(db: ApiDb, rawQuery: string) returns (results: seq<SearchHit>)
    ensures results == ApiSearchResults(db, rawQuery)
  {
    var q := Strip(rawQuery);
    if q == [] {
      return [];
    }
    var projects, apps, tasks := MatchingProjects(db, q), MatchingApps(db, q), MatchingTasks(db, q);
    var projectHits := AppendProjectHits([], projects);
    assert projectHits == ProjectHits(projects);
    var appHits := AppendAppHits(db, projectHits, apps);
    results := AppendTaskHits(appHits, tasks);
    assert results == ProjectHits(projects) + AppHits(db, apps) + TaskHits(tasks);
  }

  /** One more project appends its hit. */
  lemma ProjectHitsStep(acc: seq<SearchHit>, xs: seq<Project>, j: int)
    requires 0 <= j < |xs|
    ensures acc + ProjectHits(xs[..j + 1]) == (acc + ProjectHits(xs[..j])) + [ProjectHit(xs[j])]
  {
    assert xs[..j + 1][..j] == xs[..j];
  }

  /** One `for` loop of `api_search`: appends an entry per project. */
  method AppendProjectHits(acc: seq<SearchHit>, projects: seq<Project>) returns (results: seq<SearchHit>)
    ensures results == acc + ProjectHits(projects)
  {
    results := acc;
    var i := 0;
    while i < |projects|
      invariant 0 <= i <= |projects|
      invariant results == acc + ProjectHits(projects[..i])
    {
      ProjectHitsStep(acc, projects, i);
      results := results + [ProjectHit(projects[i])];
      i := i + 1;
    }
    assert projects[..i] == projects;
  }

  /** One more application appends its hit. */
  lemma AppHitsStep(db: ApiDb, acc: seq<SearchHit>, xs: seq<Application>, j: int)
    requires 0 <= j < |xs|
    ensures acc + AppHits(db, xs[..j + 1]) == (acc + AppHits(db, xs[..j])) + [AppHit(db, xs[j])]
  {
    assert xs[..j + 1][..j] == xs[..j];
  }

  /** One `for` loop of `api_search`: appends an entry per application. */
  method AppendAppHits(db: ApiDb, acc: seq<SearchHit>, apps: seq<Application>) returns (results: seq<SearchHit>)
    ensures results == acc + AppHits(db, apps)
  {
    results := acc;
    var i := 0;
    while i < |apps|
      invariant 0 <= i <= |apps|
      invariant results == acc + AppHits(db, apps[..i])
    {
      AppHitsStep(db, acc, apps, i);
      results := results + [AppHit(db, apps[i])];
      i := i + 1;
    }
    assert apps[..i] == apps;
  }

  /** One more apitask appends its hit. */
  lemma TaskHitsStep(acc: seq<SearchHit>, xs: seq<ApiTask>, j: int)
    requires 0 <= j < |xs|
    ensures acc + TaskHits(xs[..j + 1]) == (acc + TaskHits(xs[..j])) + [TaskHit(xs[j])]
  {
    assert xs[..j + 1][..j] == xs[..j];
  }

  /** One `for` loop of `api_search`: appends an entry per task. */
  method AppendTaskHits(acc: seq<SearchHit>, tasks: seq<ApiTask>) returns (results: seq<SearchHit>)
    ensures results == acc + TaskHits(tasks)
  {
    results := acc;
    var i := 0;
    while i < |tasks|
      invariant 0 <= i <= |tasks|
      invariant results == acc + TaskHits(tasks[..i])
    {
      TaskHitsStep(acc, tasks, i);
      results := results + [TaskHit(tasks[i])];
      i := i + 1;
    }
    assert tasks[..i] == tasks;
  }

  /** At most five hits of each kind, in kind order, each description at most 100 characters. */
  lemma {:induction false} ApiSearchBounds(db: ApiDb, rawQuery: string)
    ensures Strip(rawQuery) == [] ==> ApiSearchResults(db, rawQuery) == []
    ensures |ApiSearchResults(db, rawQuery)| <= 3 * ApiSearchCap
    ensures forall h :: h in ApiSearchResults(db, rawQuery) ==> |h.description| <= 100
    ensures forall h :: h in ApiSearchResults(db, rawQuery) ==> h.kind in ["project", "application", "task"]
  {
    var r := ApiSearchResults(db, rawQuery);
    forall h | h in r
      ensures |h.description| <= 100 && h.kind in ["project", "application", "task"]
    {
      var q := Strip(rawQuery);
      var ps, as_, ts := ProjectHits(MatchingProjects(db, q)), AppHits(db, MatchingApps(db, q)), TaskHits(MatchingTasks(db, q));
      assert r == ps + as_ + ts;
      if h in ps {
        ProjectHitsShape(MatchingProjects(db, q), h);
      } else if h in as_ {
        AppHitsShape(db, MatchingApps(db, q), h);
      } else {
        TaskHitsShape(MatchingTasks(db, q), h);
      }
    }
  }

  /** The first three projects whose name contains the query. */
  function SuggestedProjects(db: ApiDb, q: string): seq<Project> {
    Take(Filter(db.projects, (p: Project) => IContains(p.name, q)), 3)
  }

  /** The first three applications whose name contains the query. */
  function SuggestedApps(db: ApiDb, q: string): seq<Application> {
    Take(Filter(db.applications, (a: Application) => IContains(a.name, q)), 3)
  }

  /** `f"{prefix}{name(x)}"` for each element, in order. */
  function Labels<T>(prefix: string, xs: seq<T>, name: T -> string): (r: seq<string>)
    ensures |r| == |xs| && forall i :: 0 <= i < |xs| ==> r[i] == prefix + name(xs[i])
  {
    seq(|xs|, i requires 0 <= i < |xs| => prefix + name(xs[i]))
  }

  /**
   * `api_search_suggestions`: nothing for a stripped query shorter than two characters;
   * otherwise up to three project names, then up to three application names.
   */
  function Suggestions(db: ApiDb, rawQuery: string): (r: seq<string>)
    ensures |Strip(rawQuery)| < 2 ==> r == []
    ensures |r| <= 6
    ensures |Strip(rawQuery)| >= 2 ==>
      var ps, as_ := SuggestedProjects(db, Strip(rawQuery)), SuggestedApps(db, Strip(rawQuery));
      && |r| == |ps| + |as_|
      && (forall i :: 0 <= i < |ps| ==> r[i] == "Project: " + ps[i].name)
      && (forall i :: 0 <= i < |as_| ==> r[|ps| + i] == "App: " + as_[i].name)
  {
    var q := Strip(rawQuery);
    if |q| < 2 then []
    else Labels("Project: ", SuggestedProjects(db, q), NameOfProject) + Labels("App: ", SuggestedApps(db, q), NameOfApp)
  }

  // ---------------------------------------------------------------------------
  // Project progress
  // ---------------------------------------------------------------------------

  datatype AppProgress = AppProgress(name: string, progress: real, totalTasks: nat, completedTasks: nat, status: string)

  function AppTaskSet(db: ApiDb, appId: int): seq<ApiTask> {
    Filter(db.tasks, (t: ApiTask) => t.applicationId == Some(appId))
  }

  function ApiIsCompleted(t: ApiTask): bool {
    t.status == "completed"
  }

  function ProgressOf(db: ApiDb, a: Application): (r: AppProgress)
    ensures r.totalTasks == |AppTaskSet(db, a.id)| && r.completedTasks == CountIf(AppTaskSet(db, a.id), ApiIsCompleted)
    ensures r.completedTasks <= r.totalTasks && r.progress == Percent(r.completedTasks, r.totalTasks)
    ensures 0.0 <= r.progress <= 100.0
  {
    var tasks := AppTaskSet(db, a.id);
    var completed := CountIf(tasks, ApiIsCompleted);
    var progress := Percent(completed, |tasks|);
    AppProgress(a.name, progress, |tasks|, completed, a.status)
  }

  function ProgressList(db: ApiDb, apps: seq<Application>): (r: seq<AppProgress>)
    ensures |r| == |apps| && forall i :: 0 <= i < |r| ==> r[i] == ProgressOf(db, apps[i])
  {
    if apps == [] then [] else ProgressList(db, apps[..|apps| - 1]) + [ProgressOf(db, apps[|apps| - 1])]
  }

  lemma {:induction false} ProgressListBounds(db: ApiDb, apps: seq<Application>)
    ensures forall i :: 0 <= i < |ProgressList(db, apps)| ==> 0.0 <= ProgressList(db, apps)[i].progress <= 100.0
  {
    var r := ProgressList(db, apps);
    forall i | 0 <= i < |r| ensures 0.0 <= r[i].progress <= 100.0 {
      assert r[i] == ProgressOf(db, apps[i]);
    }
  }

  datatype ProgressReport = ProgressReport(name: string, applications: seq<AppProgress>)

  /**
   * `api_project_progress`: one entry per application of the project, with its guarded
   * completion ratio; a missing project is a 404.
   */
  method ProjectProgress(db: ApiDb, pk: int) returns (r: Result<ProgressReport, int>)
    ensures r.Err? <==> FindBy(db.projects, ProjectPk, pk).None?
    ensures r.Err? ==> r.error == 404
    ensures r.Ok? ==>
      && r.value.name == FindBy(db.projects, ProjectPk, pk).value.name
      && r.value.applications == ProgressList(db, Filter(db.applications, (a: Application) => a.projectId == pk))
    ensures r.Ok? ==> forall i :: 0 <= i < |r.value.applications| ==> 0.0 <= r.value.applications[i].progress <= 100.0
  {
    var project := FindBy(db.projects, ProjectPk, pk);
    if project.None? {
      return Err(404);
    }
    var apps := Filter(db.applications, (a: Application) => a.projectId == pk);
    var appsData: seq<AppProgress> := [];
    var i := 0;
    while i < |apps|
      invariant 0 <= i <= |apps|
      invariant appsData == ProgressList(db, apps[..i])
    {
      assert apps[..i + 1][..i] == apps[..i];
      var tasks := AppTaskSet(db, apps[i].id);
      var total := |tasks|;
      var completed := CountIf(tasks, ApiIsCompleted);
      var entry := AppProgress(apps[i].name, Percent(completed, total), total, completed, apps[i].status);
      assert entry == ProgressOf(db, apps[i]);
      assert ProgressList(db, apps[..i + 1]) == ProgressList(db, apps[..i]) + [ProgressOf(db, apps[i])];
      appsData := appsData + [entry];
      i := i + 1;
    }
    assert apps[..i] == apps;
    ProgressListBounds(db, apps);
    r := Ok(ProgressReport(project.value.name, appsData));
  }

  // ---------------------------------------------------------------------------
  // Widgets
  // ---------------------------------------------------------------------------

  /** `due_date__lt=today, status__in=['todo', 'in_progress']`. */
  predicate ApiOverdue(t: ApiTask, today: Date) {
    t.dueDate.Some? && t.dueDate.value < today && (t.status == "todo" || t.status == "in_progress")
  }

  datatype OverdueRow = OverdueRow(id: int, title: string, project: Option<string>, application: Option<string>,
                                   dueDate: Date, daysOverdue: int, url: string)

  /** The first ten overdue open tasks, in table order. */
  function OverdueTasks(db: ApiDb, today: Date): seq<ApiTask> {
    Take(Filter(db.tasks, (t: ApiTask) => ApiOverdue(t, today)), 10)
  }

  /** The widget row of task `t`: its id, title, project and application names, due date, lateness and URL. */
  predicate IsOverdueRow(db: ApiDb, today: Date, t: ApiTask, row: OverdueRow) {
    && row.id == t.id && row.title == t.title
    && row.project == ProjectNameOf(db, t.projectId)
    && row.application == AppNameOf(db, t.applicationId)
    && t.dueDate == Some(row.dueDate)
    && row.daysOverdue == today - row.dueDate
    && row.url == "/tracker/tasks/" + ShowInt(t.id) + "/"
  }

  /**
   * `api_widget_overdue_tasks`: the first ten overdue open tasks, each with its project's
   * and application's names (or null), and how many days it is late.
   */
  method OverdueWidget(db: ApiDb, today: Date) returns (rows: seq<OverdueRow>)
    ensures |rows| <= 10
    ensures |rows| == |OverdueTasks(db, today)|
    ensures forall i :: 0 <= i < |rows| ==> IsOverdueRow(db, today, OverdueTasks(db, today)[i], rows[i])
    ensures forall i :: 0 <= i < |rows| ==> rows[i].daysOverdue > 0
  {
    var overdue := OverdueTasks(db, today);
    FilterMembers(db.tasks, (t: ApiTask) => ApiOverdue(t, today));
    rows := [];
    var i := 0;
    while i < |overdue|
      invariant 0 <= i <= |overdue|
      invariant |rows| == i
      invariant forall j :: 0 <= j < i ==> IsOverdueRow(db, today, overdue[j], rows[j])
      invariant forall j :: 0 <= j < i ==> rows[j].daysOverdue > 0
    {
      var t := overdue[i];
      assert t in Filter(db.tasks, (t: ApiTask) => ApiOverdue(t, today));
      var due := t.dueDate.value;
      var row := OverdueRow(t.id, t.title, ProjectNameOf(db, t.projectId), AppNameOf(db, t.applicationId),
                            due, today - due, "/tracker/tasks/" + ShowInt(t.id) + "/");
      assert IsOverdueRow(db, today, t, row);
      rows := rows + [row];
      i := i + 1;
    }
  }

  /**
   * The schedule score of `api_widget_project_health`: 1.0 without both dates or without
   * positive expected progress, otherwise the ratio of completion to expected progress,
   * capped at 1.0.
   */
  function ScheduleScore(completion: real, startDate: Option<Date>, targetDate: Option<Date>, today: Date): (s: real)
    requires 0.0 <= completion <= 100.0
    ensures 0.0 <= s <= 1.0
    ensures startDate.None? || targetDate.None? ==> s == 1.0
    ensures startDate.Some? && targetDate.Some? && ExpectedProgress(startDate.value, targetDate.value, today) > 0.0 ==>
      s == Min(1.0, completion / ExpectedProgress(startDate.value, targetDate.value, today))
    ensures startDate.Some? && targetDate.Some? && ExpectedProgress(startDate.value, targetDate.value, today) <= 0.0 ==> s == 1.0
  {
    if startDate.Some? && targetDate.Some? then
      var expected := ExpectedProgress(startDate.value, targetDate.value, today);
      if expected > 0.0 then Min(1.0, completion / expected) else 1.0
    else 1.0
  }

  /** Elapsed days over planned days, as a percentage; 0 with no planned days. */
  function ExpectedProgress(start: Date, target: Date, today: Date): (e: real)
    ensures target - start <= 0 ==> e == 0.0
    ensures target - start > 0 ==> e * (target - start) as real == 100.0 * (today - start) as real
  {
    var totalDays := target - start;
    var elapsedDays := today - start;
    if totalDays > 0 then elapsedDays as real / totalDays as real * 100.0 else 0.0
  }

  function Min(a: real, b: real): real {
    if a <= b then a else b
  }

  datatype Health = Health(projectId: int, name: string, healthScore: real, completion: real, status: string, isOverdue: bool)

  /** One row of `api_widget_project_health`, before rounding. */
  function ProjectHealth(p: Project, completion: real, today: Date): (h: Health)
    requires 0.0 <= completion <= 100.0
    ensures 0.0 <= h.healthScore <= 100.0
    ensures h.isOverdue <==> p.targetDate.Some? && p.targetDate.value < today
    ensures h.isOverdue <==> ProjectIsOverdue(p, today)
  {
    var schedule := ScheduleScore(completion, p.startDate, p.targetDate, today);
    var score := (completion / 100.0 * 0.6 + schedule * 0.4) * 100.0;
    Health(p.id, p.name, score, completion, p.status, p.targetDate.Some? && p.targetDate.value < today)
  }

  /** A project at or ahead of its expected progress gets the full schedule score. */
  lemma ScheduleOnTrack(completion: real, start: Date, target: Date, today: Date)
    requires 0.0 <= completion <= 100.0
    requires 0.0 < ExpectedProgress(start, target, today) <= completion
    ensures ScheduleScore(completion, Some(start), Some(target), today) == 1.0
  {
  }

  /** A project behind schedule scores the fraction of expected progress it has reached. */
  lemma ScheduleBehind(completion: real, start: Date, target: Date, today: Date)
    requires 0.0 <= completion <= 100.0
    requires 0.0 <= completion < ExpectedProgress(start, target, today)
    ensures ScheduleScore(completion, Some(start), Some(target), today) * ExpectedProgress(start, target, today) == completion
    ensures ScheduleScore(completion, Some(start), Some(target), today) < 1.0
  {
  }

  /**
   * `api_widget_project_health`: one row per project, in order. `completions[i]` is the
   * completion percentage of `projects[i]`.
   */
  method HealthWidget(projects: seq<Project>, completions: seq<real>, today: Date) returns (rows: seq<Health>)
    requires |completions| == |projects|
    requires forall i :: 0 <= i < |completions| ==> 0.0 <= completions[i] <= 100.0
    ensures |rows| == |projects|
    ensures forall i :: 0 <= i < |rows| ==> rows[i] == ProjectHealth(projects[i], completions[i], today)
    ensures forall i :: 0 <= i < |rows| ==> 0.0 <= rows[i].healthScore <= 100.0 && rows[i].projectId == projects[i].id
  {
    rows := [];
    var i := 0;
    while i < |projects|
      invariant 0 <= i <= |projects| && |rows| == i
      invariant forall j :: 0 <= j < i ==> rows[j] == ProjectHealth(projects[j], completions[j], today)
    {
      rows := rows + [ProjectHealth(projects[i], completions[i], today)];
      i := i + 1;
    }
  }
}
