/**
 * The rules inside tracker/views.py: the bulk task operation over the table of tasks, the
 * dashboard's rates and date-range fallback, the global search's per-kind caps and total,
 * a task detail's time variance, the project timeline and the footer statistics.
 */
module Views {
  import opened Wrappers
  import opened Seqs
  import opened Text
  import opened Models
  import opened Forms

  // ---------------------------------------------------------------------------
  // Bulk task operations
  // ---------------------------------------------------------------------------

  /** The values `Task.STATUS_CHOICES` allows. */
  const TaskStatuses: seq<string> := ["pending", "in-progress", "completed", "blocked"]

  /** `action.replace('_', '-')`. */
  function ReplaceChar(s: string, from: char, to: char): (r: string)
    ensures |r| == |s|
    ensures forall i :: 0 <= i < |s| ==> r[i] == (if s[i] == from then to else s[i])
  {
    seq(|s|, i requires 0 <= i < |s| => if s[i] == from then to else s[i])
  }

  /** The status actions of the bulk form. */
  predicate IsStatusAction(action: string) {
    action == "complete" || action == "in_progress" || action == "pending"
  }

  /** The row an UPDATE of the bulk operation leaves for one matched task. */
  function ApplyBulkAction(t: Task, req: BulkRequest): Task {
    if IsStatusAction(req.action) then t.(status := ReplaceChar(req.action, '_', '-'))
    else if req.action == "change_assignee" then t.(assignee := req.newAssignee)
    else if req.action == "update_due_date" then t.(dueDate := req.newDueDate)
    else t
  }

  /** The table after `Task.objects.filter(id__in=task_ids).update(...)`. */
  function BulkApply(rows: map<int, Task>, req: BulkRequest): map<int, Task> {
    map k | k in rows :: if k in req.taskIds then ApplyBulkAction(rows[k], req) else rows[k]
  }

  /** The ids of the rows `filter(id__in=task_ids)` matches. */
  function MatchedIds(rows: map<int, Task>, ids: seq<int>): set<int> {
    set k | k in rows && k in ids
  }

  /** The table of tasks, keyed by primary key. */
  class TaskTable {
    var rows: map<int, Task>

    /** Every row is stored under its own id. */
    predicate Valid()
      reads this
    {
      forall k :: k in rows ==> rows[k].id == k
    }

    constructor (rows: map<int, Task>)
      requires forall k :: k in rows ==> rows[k].id == k
      ensures Valid() && this.rows == rows
    {
      this.rows := rows;
    }

    /**
     * `bulk_task_operations_view` on a POST: an invalid form changes nothing; a valid one
     * updates the selected tasks in one UPDATE and reports how many rows matched.
     */
    method BulkTaskOperations(action: string, newAssignee: string, newDueDate: Option<Date>, selectedTasks: string)
      returns (valid: bool, updatedCount: nat)
      requires Valid()
      modifies this
      ensures Valid()
      ensures valid <==> BulkTaskFormValid(action, newAssignee, newDueDate, selectedTasks).Some?
      ensures !valid ==> rows == old(rows) && updatedCount == 0
      ensures valid ==>
        var req := BulkTaskFormValid(action, newAssignee, newDueDate, selectedTasks).value;
        rows == BulkApply(old(rows), req) && updatedCount == |MatchedIds(old(rows), req.taskIds)|
    {
      var form := BulkTaskFormValid(action, newAssignee, newDueDate, selectedTasks);
      updatedCount := 0;
      if form.None? {
        valid := false;
        return;
      }
      valid := true;
      var req := form.value;
      var matched := MatchedIds(rows, req.taskIds);
      rows := BulkApply(rows, req);
      BulkApplyKeepsIds(old(rows), req);
      updatedCount := |matched|;
    }
  }

  lemma BulkApplyKeepsIds(rows: map<int, Task>, req: BulkRequest)
    requires forall k :: k in rows ==> rows[k].id == k
    ensures forall k :: k in BulkApply(rows, req) ==> BulkApply(rows, req)[k].id == k
  {
  }

  /** A bulk operation changes no task outside the selection and adds or removes no row. */
  lemma BulkApplyFrame(rows: map<int, Task>, req: BulkRequest, k: int)
    ensures k in BulkApply(rows, req) <==> k in rows
    ensures k in rows && k !in req.taskIds ==> BulkApply(rows, req)[k] == rows[k]
  {
  }

  /** On a selected task only the field the action names changes. */
  lemma BulkApplyOneField(rows: map<int, Task>, req: BulkRequest, k: int)
    requires k in rows && k in req.taskIds
    ensures var t, u := rows[k], BulkApply(rows, req)[k];
      && u.id == t.id && u.applicationId == t.applicationId && u.title == t.title
      && u.description == t.description && u.priority == t.priority
      && u.estimatedHours == t.estimatedHours && u.actualHours == t.actualHours
      && (IsStatusAction(req.action) ==> u == t.(status := ReplaceChar(req.action, '_', '-')))
      && (req.action == "in_progress" ==> u.status == "in-progress")
      && (req.action == "pending" ==> u.status == "pending")
      && (req.action == "complete" ==> u.status == "complete")
      && (req.action == "change_assignee" ==> u == t.(assignee := req.newAssignee))
      && (req.action == "update_due_date" ==> u == t.(dueDate := req.newDueDate))
  {
    StatusActionValues();
  }

  /** `in_progress` sets `in-progress`, `pending` sets `pending`, and `complete` sets `complete`. */
  lemma StatusActionValues()
    ensures ReplaceChar("in_progress", '_', '-') == "in-progress"
    ensures ReplaceChar("pending", '_', '-') == "pending"
    ensures ReplaceChar("complete", '_', '-') == "complete"
  {
    assert ReplaceChar("in_progress", '_', '-') == "in-progress" by {
      var r := ReplaceChar("in_progress", '_', '-');
      assert r[2] == '-';
    }
  }

  /**
   * The `complete` action writes a status that is not one of the statuses of a task, so the
   * tasks it touches count neither as completed nor as overdue afterwards.
   */
  lemma CompleteActionStatus(rows: map<int, Task>, req: BulkRequest, k: int, today: Date)
    requires req.action == "complete" && k in rows && k in req.taskIds
    ensures BulkApply(rows, req)[k].status == "complete"
    ensures "complete" !in TaskStatuses
    ensures !IsCompleted(BulkApply(rows, req)[k]) && !IsOverdue(BulkApply(rows, req)[k], today)
  {
    StatusActionValues();
  }

  /** The reported count is the number of selected ids that exist, at most the number of distinct ids. */
  lemma MatchedIdsBound(rows: map<int, Task>, ids: seq<int>)
    ensures MatchedIds(rows, ids) <= rows.Keys
    ensures |MatchedIds(rows, ids)| <= |set i | i in ids|
  {
    assert MatchedIds(rows, ids) <= set i | i in ids;
    SubsetCard(MatchedIds(rows, ids), set i | i in ids);
  }

  lemma SubsetCard(a: set<int>, b: set<int>)
    requires a <= b
    ensures |a| <= |b|
  {
    assert b == a + (b - a);
  }

  // ---------------------------------------------------------------------------
  // Dashboard
  // ---------------------------------------------------------------------------

  /** `int(request.GET.get('date_range', '30'))`, falling back to 30 where `int` fails. */
  function DaysBack(dateRange: Option<string>): (days: int)
    ensures dateRange.None? ==> days == 30
    ensures dateRange.Some? && ParseInt(dateRange.value).Some? ==> days == ParseInt(dateRange.value).value
    ensures dateRange.Some? && ParseInt(dateRange.value).None? ==> days == 30
  {
    assert ShowInt(30) == "30";
    ParseShow(30);
    ParseInt(dateRange.GetOr("30")).GetOr(30)
  }

  /** The dashboard's three completion rates. */
  datatype Rates = Rates(projectRate: real, appRate: real, taskRate: real)

  /** The projects the dashboard looks at: all, or the one whose id the filter names. */
  function DashboardProjects(db: Db, projectFilter: Option<int>): seq<Project> {
    if projectFilter.None? then db.projects
    else Filter(db.projects, (p: Project) => p.id == projectFilter.value)
  }

  predicate ProjectIdIn(projects: seq<Project>, pid: int) {
    exists i :: 0 <= i < |projects| && projects[i].id == pid
  }

  /** The applications of the given projects. */
  function DashboardApps(db: Db, projects: seq<Project>): seq<Application> {
    Filter(db.applications, (a: Application) => ProjectIdIn(projects, a.projectId))
  }

  predicate AppIdIn(apps: seq<Application>, appId: int) {
    exists i :: 0 <= i < |apps| && apps[i].id == appId
  }

  /** The tasks of the given applications. */
  function DashboardTasks(db: Db, apps: seq<Application>): seq<Task> {
    Filter(db.tasks, (t: Task) => AppIdIn(apps, t.applicationId))
  }

  predicate ProjectCompleted(p: Project) {
    p.status == "completed"
  }

  /** An application in production counts as completed on the dashboard. */
  predicate AppInProduction(a: Application) {
    a.status == "production"
  }

  /** `completed / total * 100` over the elements of `s` that satisfy `done`, or 0 when `s` is empty. */
  function CompletionRate<T>(s: seq<T>, done: T -> bool): (r: real)
    ensures 0.0 <= r <= 100.0
    ensures |s| == 0 ==> r == 0.0
    ensures |s| > 0 ==> r * |s| as real == 100.0 * CountIf(s, done) as real
  {
    Percent(CountIf(s, done), |s|)
  }

  /**
   * `dashboard_view`'s rates over the projects the filter selects, their applications and
   * those applications' tasks: completed projects, applications in production and completed
   * tasks, each as a `CompletionRate`.
   */
  function DashboardRates(db: Db, projectFilter: Option<int>): (r: Rates)
    ensures 0.0 <= r.projectRate <= 100.0 && 0.0 <= r.appRate <= 100.0 && 0.0 <= r.taskRate <= 100.0
    ensures var ps := DashboardProjects(db, projectFilter);
      && r.projectRate == CompletionRate(ps, ProjectCompleted)
      && r.appRate == CompletionRate(DashboardApps(db, ps), AppInProduction)
      && r.taskRate == CompletionRate(DashboardTasks(db, DashboardApps(db, ps)), IsCompleted)
  {
    var projects := DashboardProjects(db, projectFilter);
    var apps := DashboardApps(db, projects);
    var tasks := DashboardTasks(db, apps);
    Rates(CompletionRate(projects, ProjectCompleted), CompletionRate(apps, AppInProduction), CompletionRate(tasks, IsCompleted))
  }

  /** `api_stats`'s `completion_rate` over every task: 0 with no tasks. */
  function ApiStatsCompletionRate(db: Db): (rate: real)
    ensures 0.0 <= rate <= 100.0
    ensures |db.tasks| == 0 ==> rate == 0.0
    ensures |db.tasks| > 0 ==> rate * |db.tasks| as real == 100.0 * CountIf(db.tasks, IsCompleted) as real
  {
    Percent(CountIf(db.tasks, IsCompleted), |db.tasks|)
  }

  // ---------------------------------------------------------------------------
  // Task detail
  // ---------------------------------------------------------------------------

  datatype TimeVarianceInfo = TimeVarianceInfo(hours: int, percentage: real)

  /** `TaskDetailView`'s `time_variance`: present only when both hour counts are truthy. */
  function TimeVariance(t: Task): (v: Option<TimeVarianceInfo>)
    ensures v.Some? <==> HoursVariance(t).Some?
    ensures v.Some? ==> v.value.hours == HoursVariance(t).value
    ensures v.Some? ==> v.value.percentage * t.estimatedHours.value as real == 100.0 * v.value.hours as real
  {
    if Truthy(t.estimatedHours) && Truthy(t.actualHours) then
      var variance := t.actualHours.value - t.estimatedHours.value;
      var pct := (variance as real / t.estimatedHours.value as real) * 100.0;
      Some(TimeVarianceInfo(variance, pct))
    else None
  }

  // ---------------------------------------------------------------------------
  // Global search
  // ---------------------------------------------------------------------------

  const SearchTypes: seq<string> := ["all", "projects", "applications", "artifacts", "tasks", "decisions", "integrations"]
  const SearchCap: nat := 10

  /** `SearchForm.is_valid()`: a query that is non-blank and at most 255 characters once stripped, a known type (or none), and an existing project (or none). */
  predicate SearchFormValid(db: Db, query: string, searchType: string, projectFilter: Option<int>) {
    var q := Strip(query);
    && q != [] && |q| <= 255
    && (searchType == [] || searchType in SearchTypes)
    && (projectFilter.None? || ProjectIdIn(db.projects, projectFilter.value))
  }

  /** `searchType in ['all', kind]`. */
  predicate Selects(searchType: string, kind: string) {
    searchType == "all" || searchType == kind
  }

  /** `application__project=p`: the application exists and belongs to project `p`. */
  predicate AppInProject(db: Db, appId: int, projectId: int) {
    FindBy(db.applications, AppPk, appId).Some? && FindBy(db.applications, AppPk, appId).value.projectId == projectId
  }

  predicate ProjectMatches(p: Project, q: string, pf: Option<int>) {
    (IContains(p.name, q) || IContains(p.description, q)) && (pf.None? || p.id == pf.value)
  }

  predicate AppMatches(a: Application, q: string, pf: Option<int>) {
    (IContains(a.name, q) || IContains(a.description, q)) && (pf.None? || a.projectId == pf.value)
  }

  predicate ArtifactMatches(db: Db, a: Artifact, q: string, pf: Option<int>) {
    (IContains(a.name, q) || IContains(a.content, q) || IContains(a.description, q))
    && (pf.None? || (a.applicationId.Some? && AppInProject(db, a.applicationId.value, pf.value)))
  }

  predicate TaskMatches(db: Db, t: Task, q: string, pf: Option<int>) {
    (IContains(t.title, q) || IContains(t.description, q)) && (pf.None? || AppInProject(db, t.applicationId, pf.value))
  }

  predicate DecisionMatches(d: Decision, q: string, pf: Option<int>) {
    (IContains(d.title, q) || IContains(d.description, q)) && (pf.None? || d.projectId == pf.value)
  }

  predicate IntegrationMatches(db: Db, i: Integration, q: string, pf: Option<int>) {
    IContains(i.description, q)
    && (pf.None? || AppInProject(db, i.fromApp, pf.value) || AppInProject(db, i.toApp, pf.value))
  }

  datatype SearchResults = SearchResults(
    projects: seq<Project>, applications: seq<Application>, artifacts: seq<Artifact>,
    tasks: seq<Task>, decisions: seq<Decision>, integrations: seq<Integration>)

  function TotalResults(r: SearchResults): nat {
    |r.projects| + |r.applications| + |r.artifacts| + |r.tasks| + |r.decisions| + |r.integrations|
  }

  const NoResults := SearchResults([], [], [], [], [], [])

  /**
   * `search_view`: on a valid form, each kind that the search type selects gets the first
   * ten matches, the others stay empty; `total_results` adds up the six lists.
   */
  method SearchView(db: Db, query: string, searchType: string, projectFilter: Option<int>)
    returns (results: SearchResults, total: nat)
    ensures total == TotalResults(results) && total <= 6 * SearchCap
    ensures !SearchFormValid(db, query, searchType, projectFilter) ==> results == NoResults
    ensures SearchFormValid(db, query, searchType, projectFilter) ==>
      var q := Strip(query);
      && results.projects == (if Selects(searchType, "projects") then Take(Filter(db.projects, (p: Project) => ProjectMatches(p, q, projectFilter)), SearchCap) else [])
      && results.applications == (if Selects(searchType, "applications") then Take(Filter(db.applications, (a: Application) => AppMatches(a, q, projectFilter)), SearchCap) else [])
      && results.artifacts == (if Selects(searchType, "artifacts") then Take(Filter(db.artifacts, (a: Artifact) => ArtifactMatches(db, a, q, projectFilter)), SearchCap) else [])
      && results.tasks == (if Selects(searchType, "tasks") then Take(Filter(db.tasks, (t: Task) => TaskMatches(db, t, q, projectFilter)), SearchCap) else [])
      && results.decisions == (if Selects(searchType, "decisions") then Take(Filter(db.decisions, (d: Decision) => DecisionMatches(d, q, projectFilter)), SearchCap) else [])
      && results.integrations == (if Selects(searchType, "integrations") then Take(Filter(db.integrations, (i: Integration) => IntegrationMatches(db, i, q, projectFilter)), SearchCap) else [])
    ensures searchType == [] ==> results == NoResults
  {
    results := NoResults;
    if SearchFormValid(db, query, searchType, projectFilter) {
      var q := Strip(query);
      if Selects(searchType, "projects") {
        results := results.(projects := Take(Filter(db.projects, (p: Project) => ProjectMatches(p, q, projectFilter)), SearchCap));
      }
      if Selects(searchType, "applications") {
        results := results.(applications := Take(Filter(db.applications, (a: Application) => AppMatches(a, q, projectFilter)), SearchCap));
      }
      if Selects(searchType, "artifacts") {
        results := results.(artifacts := Take(Filter(db.artifacts, (a: Artifact) => ArtifactMatches(db, a, q, projectFilter)), SearchCap));
      }
      if Selects(searchType, "tasks") {
        results := results.(tasks := Take(Filter(db.tasks, (t: Task) => TaskMatches(db, t, q, projectFilter)), SearchCap));
      }
      if Selects(searchType, "decisions") {
        results := results.(decisions := Take(Filter(db.decisions, (d: Decision) => DecisionMatches(d, q, projectFilter)), SearchCap));
      }
      if Selects(searchType, "integrations") {
        results := results.(integrations := Take(Filter(db.integrations, (i: Integration) => IntegrationMatches(db, i, q, projectFilter)), SearchCap));
      }
    }
    total := |results.projects| + |results.applications| + |results.artifacts|
      + |results.tasks| + |results.decisions| + |results.integrations|;
  }

  // ---------------------------------------------------------------------------
  // Project timeline
  // ---------------------------------------------------------------------------

  datatype TimelineEntry = TimelineEntry(date: Option<Date>, title: string, app: string, status: string)

  function EntryOf(app: Application, t: Task): TimelineEntry {
    TimelineEntry(t.dueDate, t.title, app.name, t.status)
  }

  function EntriesOf(app: Application, tasks: seq<Task>): (r: seq<TimelineEntry>)
    ensures |r| == |tasks|
    ensures forall i :: 0 <= i < |r| ==> r[i] == EntryOf(app, tasks[i])
  {
    if tasks == [] then [] else EntriesOf(app, tasks[..|tasks| - 1]) + [EntryOf(app, tasks[|tasks| - 1])]
  }

  /** Every application's first three tasks (in the database's due-date order), application after application. */
  function TimelineOf(appTasks: seq<(Application, seq<Task>)>): seq<TimelineEntry> {
    if appTasks == [] then []
    else
      var last := appTasks[|appTasks| - 1];
      TimelineOf(appTasks[..|appTasks| - 1]) + EntriesOf(last.0, Take(last.1, 3))
  }

  /** The timeline gets at most three entries per application. */
  lemma {:induction false} TimelineLength(appTasks: seq<(Application, seq<Task>)>)
    ensures |TimelineOf(appTasks)| <= 3 * |appTasks|
  {
    if appTasks != [] {
      TimelineLength(appTasks[..|appTasks| - 1]);
    }
  }

  /**
   * The loop of `ProjectDetailView.get_context_data` that appends each application's
   * first three tasks to `timeline_data`.
   */
  method BuildTimeline(appTasks: seq<(Application, seq<Task>)>) returns (timeline: seq<TimelineEntry>)
    ensures timeline == TimelineOf(appTasks)
    ensures |timeline| <= 3 * |appTasks|
  {
    timeline := [];
    var i := 0;
    while i < |appTasks|
      invariant 0 <= i <= |appTasks|
      invariant timeline == TimelineOf(appTasks[..i])
    {
      var (app, tasks) := appTasks[i];
      var first := Take(tasks, 3);
      var j := 0;
      ghost var before := timeline;
      while j < |first|
        invariant 0 <= j <= |first|
        invariant timeline == before + EntriesOf(app, first[..j])
      {
        assert first[..j + 1][..j] == first[..j];
        timeline := timeline + [EntryOf(app, first[j])];
        j := j + 1;
      }
      assert first[..j] == first;
      assert appTasks[..i + 1][..i] == appTasks[..i];
      i := i + 1;
    }
    assert appTasks[..i] == appTasks;
    TimelineLength(appTasks);
  }

  /** The sort key `x['date'] or today`. */
  function SortKey(e: TimelineEntry, today: Date): Date {
    e.date.GetOr(today)
  }

  predicate SortedByKey(s: seq<TimelineEntry>, today: Date) {
    forall i, j :: 0 <= i < j < |s| ==> SortKey(s[i], today) <= SortKey(s[j], today)
  }

  /** Insert `e` after every trailing entry whose key is greater, keeping the order of equal keys. */
  function Insert(e: TimelineEntry, s: seq<TimelineEntry>, today: Date): (r: seq<TimelineEntry>)
    ensures multiset(r) == multiset(s) + multiset{e}
    decreases |s|
  {
    if s == [] then [e]
    else if SortKey(s[|s| - 1], today) <= SortKey(e, today) then s + [e]
    else
      var init := s[..|s| - 1];
      assert s == init + [s[|s| - 1]];
      Insert(e, init, today) + [s[|s| - 1]]
  }

  /** Every key of an insertion result is bounded by a bound on `e` and on `s`. */
  lemma {:induction false} InsertBound(e: TimelineEntry, s: seq<TimelineEntry>, today: Date, bound: Date)
    requires SortKey(e, today) <= bound
    requires forall i :: 0 <= i < |s| ==> SortKey(s[i], today) <= bound
    ensures forall i :: 0 <= i < |Insert(e, s, today)| ==> SortKey(Insert(e, s, today)[i], today) <= bound
  {
    var r := Insert(e, s, today);
    forall i | 0 <= i < |r| ensures SortKey(r[i], today) <= bound {
      assert r[i] in multiset(r);
      if r[i] != e {
        assert r[i] in multiset(s);
        var j :| 0 <= j < |s| && s[j] == r[i];
      }
    }
  }

  lemma {:induction false} InsertSorted(e: TimelineEntry, s: seq<TimelineEntry>, today: Date)
    requires SortedByKey(s, today)
    ensures SortedByKey(Insert(e, s, today), today)
    decreases |s|
  {
    if s != [] && SortKey(s[|s| - 1], today) > SortKey(e, today) {
      var init := s[..|s| - 1];
      var last := s[|s| - 1];
      assert SortedByKey(init, today);
      InsertSorted(e, init, today);
      InsertBound(e, init, today, SortKey(last, today));
    }
  }

  /** `sorted(timeline_data, key=lambda x: x['date'] or today)`, as an insertion sort. */
  function SortTimeline(s: seq<TimelineEntry>, today: Date): (r: seq<TimelineEntry>)
    ensures multiset(r) == multiset(s)
  {
    if s == [] then []
    else
      var init := s[..|s| - 1];
      assert s == init + [s[|s| - 1]];
      Insert(s[|s| - 1], SortTimeline(init, today), today)
  }

  /** The sorted timeline is ordered by date, a missing date counting as today. */
  lemma {:induction false} SortTimelineSorted(s: seq<TimelineEntry>, today: Date)
    ensures SortedByKey(SortTimeline(s, today), today)
  {
    if s != [] {
      SortTimelineSorted(s[..|s| - 1], today);
      InsertSorted(s[|s| - 1], SortTimeline(s[..|s| - 1], today), today);
    }
  }
}
