/**
 * The tracker's records (tracker/models.py) and the properties derived from them.
 * A database snapshot is a `Db` of record sequences linked by ids; dates are day
 * numbers and "today" is a parameter.
 */
module Models {
  import opened Wrappers
  import opened Seqs

  /** A calendar date as a day number. */
  type Date = int

  datatype Project = Project(
    id: int, name: string, description: string, status: string,
    startDate: Option<Date>, targetDate: Option<Date>)

  datatype Application = Application(
    id: int, projectId: int, name: string, description: string,
    complexity: string, status: string, estimatedWeeks: nat, features: seq<string>)

  /** The primary keys, as the key functions of a lookup. */
  function ProjectPk(p: Project): int { p.id }

  function AppPk(a: Application): int { a.id }

  function NameOfProject(p: Project): string { p.name }

  function NameOfApp(a: Application): string { a.name }

  datatype Task = Task(
    id: int, applicationId: int, title: string, description: string,
    priority: string, status: string, assignee: string,
    dueDate: Option<Date>, estimatedHours: Option<nat>, actualHours: Option<nat>)

  datatype Artifact = Artifact(
    id: int, applicationId: Option<int>, name: string, kind: string, description: string,
    content: string, version: string, status: string)

  datatype Decision = Decision(
    id: int, projectId: int, title: string, description: string, status: string,
    impact: string, createdDate: Date)

  datatype Integration = Integration(
    id: int, fromApp: int, toApp: int, integrationType: string, status: string,
    complexity: string, description: string, estimatedWeeks: nat)

  datatype Db = Db(
    projects: seq<Project>, applications: seq<Application>, tasks: seq<Task>,
    artifacts: seq<Artifact>, decisions: seq<Decision>, integrations: seq<Integration>)

  /** No two applications share an id. */
  predicate DistinctAppIds(apps: seq<Application>) {
    forall i, j :: 0 <= i < j < |apps| ==> apps[i].id != apps[j].id
  }

  function AppIds(apps: seq<Application>): set<int> {
    set a | a in apps :: a.id
  }

  /** `project.applications.all()`. */
  function AppsOf(db: Db, projectId: int): seq<Application> {
    Filter(db.applications, (a: Application) => a.projectId == projectId)
  }

  /** `application.tasks.all()`. */
  function AppTasks(db: Db, appId: int): seq<Task> {
    Filter(db.tasks, (t: Task) => t.applicationId == appId)
  }

  predicate IsCompleted(t: Task) {
    t.status == "completed"
  }

  /** The statuses in which work is still open, so a task can fall behind. */
  predicate IsOpen(status: string) {
    status == "pending" || status == "in-progress"
  }

  // ---------------------------------------------------------------------------
  // Completion percentages
  // ---------------------------------------------------------------------------

  /**
   * `completed / total * 100` guarded against an empty total (before the rounding to one
   * decimal, which is left out).
   */
  function Percent(completed: nat, total: nat): (r: real)
    requires completed <= total
    ensures 0.0 <= r <= 100.0
    ensures total == 0 ==> r == 0.0
    ensures total > 0 ==> r * total as real == 100.0 * completed as real
    ensures r == 0.0 <==> total == 0 || completed == 0
    ensures r == 100.0 <==> total > 0 && completed == total
  {
    if total == 0 then 0.0
    else
      var r := (completed as real / total as real) * 100.0;
      assert r * total as real == 100.0 * completed as real;
      r
  }

  /** Sum over `apps` of how many of each application's tasks satisfy `q`. */
  function SumOverApps(db: Db, apps: seq<Application>, q: Task -> bool): nat {
    if apps == [] then 0
    else SumOverApps(db, apps[..|apps| - 1], q) + CountIf(AppTasks(db, apps[|apps| - 1].id), q)
  }

  function AnyTask(t: Task): bool {
    true
  }

  /**
   * `Project.completion_percentage`: the loop over the project's applications adds up
   * every application's task count and completed count, then takes the guarded ratio.
   */
  method CompletionPercentage(db: Db, projectId: int) returns (pct: real)
    ensures SumOverApps(db, AppsOf(db, projectId), IsCompleted) <= SumOverApps(db, AppsOf(db, projectId), AnyTask)
    ensures pct == Percent(SumOverApps(db, AppsOf(db, projectId), IsCompleted), SumOverApps(db, AppsOf(db, projectId), AnyTask))
    ensures 0.0 <= pct <= 100.0
    ensures SumOverApps(db, AppsOf(db, projectId), AnyTask) == 0 ==> pct == 0.0
  {
    var apps := AppsOf(db, projectId);
    var totalTasks: nat := 0;
    var completedTasks: nat := 0;
    var i := 0;
    while i < |apps|
      invariant 0 <= i <= |apps|
      invariant totalTasks == SumOverApps(db, apps[..i], AnyTask)
      invariant completedTasks == SumOverApps(db, apps[..i], IsCompleted)
      invariant completedTasks <= totalTasks
    {
      var appTasks := AppTasks(db, apps[i].id);
      assert apps[..i + 1][..i] == apps[..i];
      CountAnyIsLength(appTasks);
      totalTasks := totalTasks + |appTasks|;
      completedTasks := completedTasks + CountIf(appTasks, IsCompleted);
      CountIfAtMost(appTasks, IsCompleted, AnyTask);
      i := i + 1;
    }
    assert apps[..i] == apps;
    if totalTasks == 0 {
      pct := 0.0;
    } else {
      pct := (completedTasks as real / totalTasks as real) * 100.0;
    }
  }

  lemma {:induction false} CountAnyIsLength(s: seq<Task>)
    ensures CountIf(s, AnyTask) == |s|
  {
    if s != [] {
      CountAnyIsLength(s[..|s| - 1]);
    }
  }

  /** A predicate implied by another counts at least as many elements. */
  lemma {:induction false} CountIfAtMost(s: seq<Task>, p: Task -> bool, q: Task -> bool)
    requires forall x :: p(x) ==> q(x)
    ensures CountIf(s, p) <= CountIf(s, q)
  {
    if s != [] {
      CountIfAtMost(s[..|s| - 1], p, q);
    }
  }

  /** `Application.tasks_completion_percentage`. */
  function AppCompletion(db: Db, appId: int): (r: real)
    ensures 0.0 <= r <= 100.0
    ensures r == 0.0 <==> forall i :: 0 <= i < |AppTasks(db, appId)| ==> !IsCompleted(AppTasks(db, appId)[i])
    ensures r == 100.0 <==> |AppTasks(db, appId)| > 0 && forall i :: 0 <= i < |AppTasks(db, appId)| ==> IsCompleted(AppTasks(db, appId)[i])
  {
    var tasks := AppTasks(db, appId);
    CountIfZero(tasks, IsCompleted);
    CountIfAll(tasks, IsCompleted);
    Percent(CountIf(tasks, IsCompleted), |tasks|)
  }

  // ---------------------------------------------------------------------------
  // Overdue tasks
  // ---------------------------------------------------------------------------

  /** `Task.is_overdue`: a due date in the past on a task whose work is still open. */
  predicate IsOverdue(t: Task, today: Date) {
    match t.dueDate
    case None => false
    case Some(d) => d < today && IsOpen(t.status)
  }

  /** The ORM filter `due_date__lt=today, status__in=['pending', 'in-progress']`; NULL never matches. */
  predicate OverdueQuery(t: Task, today: Date) {
    t.dueDate.Some? && t.dueDate.value < today && t.status in ["pending", "in-progress"]
  }

  /**
   * A completed or blocked task is never overdue; an overdue task stays overdue on every
   * later day while its status and due date stay as they are, and completing it clears it.
   */
  lemma OverdueNeedsOpenPastDue(t: Task, today: Date, later: Date)
    ensures t.status == "completed" || t.status == "blocked" ==> !IsOverdue(t, today)
    ensures IsOverdue(t, today) && today <= later ==> IsOverdue(t, later)
    ensures !IsOverdue(t.(status := "completed"), today)
    ensures t.dueDate.None? ==> !IsOverdue(t, later)
  {
  }

  /** `Application.overdue_tasks_count`. */
  function AppOverdueCount(db: Db, appId: int, today: Date): (n: nat)
    ensures n <= |AppTasks(db, appId)|
  {
    CountIf(AppTasks(db, appId), (t: Task) => OverdueQuery(t, today))
  }

  /** The query the application count runs counts exactly the tasks `Task.is_overdue` flags. */
  lemma AppOverdueCountIsOverdue(db: Db, appId: int, today: Date)
    ensures AppOverdueCount(db, appId, today) == CountIf(AppTasks(db, appId), (t: Task) => IsOverdue(t, today))
  {
    CountIfCongruent(AppTasks(db, appId), (t: Task) => OverdueQuery(t, today), (t: Task) => IsOverdue(t, today));
  }

  /** `Project.overdue_tasks_count`: the sum of the per-application counts. */
  method ProjectOverdueCount(db: Db, projectId: int, today: Date) returns (overdueCount: nat)
    ensures overdueCount == SumOverApps(db, AppsOf(db, projectId), (t: Task) => OverdueQuery(t, today))
  {
    var apps := AppsOf(db, projectId);
    overdueCount := 0;
    var i := 0;
    while i < |apps|
      invariant 0 <= i <= |apps|
      invariant overdueCount == SumOverApps(db, apps[..i], (t: Task) => OverdueQuery(t, today))
    {
      assert apps[..i + 1][..i] == apps[..i];
      overdueCount := overdueCount + AppOverdueCount(db, apps[i].id, today);
      i := i + 1;
    }
    assert apps[..i] == apps;
  }

  /** Filtering keeps ids distinct. */
  lemma {:induction false} FilterDistinct(s: seq<Application>, p: Application -> bool)
    requires DistinctAppIds(s)
    ensures DistinctAppIds(Filter(s, p))
  {
    if s != [] {
      var init := s[..|s| - 1];
      var last := s[|s| - 1];
      assert DistinctAppIds(init);
      FilterDistinct(init, p);
      var f := Filter(init, p);
      FilterMembers(init, p);
      forall k | 0 <= k < |f|
        ensures f[k].id != last.id
      {
        assert f[k] in init;
        var j :| 0 <= j < |init| && init[j] == f[k];
        assert s[j] == init[j];
      }
    }
  }

  /**
   * Adding up per-application counts over applications with distinct ids is counting,
   * over every task, those that belong to one of them and satisfy `q`.
   */
  lemma {:induction false} SumOverAppsFlat(db: Db, apps: seq<Application>, q: Task -> bool)
    requires DistinctAppIds(apps)
    ensures SumOverApps(db, apps, q) == CountIf(db.tasks, (t: Task) => t.applicationId in AppIds(apps) && q(t))
  {
    if apps == [] {
      CountIfCongruent(db.tasks, (t: Task) => t.applicationId in AppIds(apps) && q(t), (t: Task) => false);
      CountIfZero(db.tasks, (t: Task) => false);
    } else {
      var init := apps[..|apps| - 1];
      var last := apps[|apps| - 1];
      assert DistinctAppIds(init);
      SumOverAppsFlat(db, init, q);
      CountIfFilter(db.tasks, (t: Task) => t.applicationId == last.id, q,
        (t: Task) => t.applicationId == last.id && q(t));
      assert apps == init + [last];
      assert AppIds(apps) == AppIds(init) + {last.id};
      assert last.id !in AppIds(init) by {
        forall a | a in init ensures a.id != last.id {
          var j :| 0 <= j < |init| && init[j] == a;
          assert apps[j] == a;
        }
      }
      CountIfDisjointUnion(db.tasks,
        (t: Task) => t.applicationId in AppIds(init) && q(t),
        (t: Task) => t.applicationId == last.id && q(t),
        (t: Task) => t.applicationId in AppIds(apps) && q(t));
    }
  }

  /** The applications of a project are those whose project id is its id. */
  lemma AppsOfIds(db: Db, projectId: int, appId: int)
    ensures appId in AppIds(AppsOf(db, projectId)) <==>
      exists i :: 0 <= i < |db.applications| && db.applications[i].id == appId && db.applications[i].projectId == projectId
  {
    var apps := AppsOf(db, projectId);
    FilterMembers(db.applications, (a: Application) => a.projectId == projectId);
    if appId in AppIds(apps) {
      var a :| a in apps && a.id == appId;
      var k :| 0 <= k < |apps| && apps[k] == a;
      var i :| 0 <= i < |db.applications| && db.applications[i] == a;
    }
  }

  /**
   * The project's overdue count is the number of the project's tasks that `Task.is_overdue`
   * flags: counting per application and adding gives the same as counting them all at once,
   * when application ids are distinct.
   */
  lemma ProjectOverdueIsOverdue(db: Db, projectId: int, today: Date)
    requires DistinctAppIds(db.applications)
    ensures SumOverApps(db, AppsOf(db, projectId), (t: Task) => OverdueQuery(t, today)) ==
      CountIf(db.tasks, (t: Task) => t.applicationId in AppIds(AppsOf(db, projectId)) && IsOverdue(t, today))
  {
    var apps := AppsOf(db, projectId);
    FilterDistinct(db.applications, (a: Application) => a.projectId == projectId);
    var q := (t: Task) => OverdueQuery(t, today);
    SumOverAppsFlat(db, apps, q);
    CountIfCongruent(db.tasks,
      (t: Task) => t.applicationId in AppIds(apps) && q(t),
      (t: Task) => t.applicationId in AppIds(apps) && IsOverdue(t, today));
  }

  /** `Task.days_until_due`: negative once the due date has passed. */
  function DaysUntilDue(t: Task, today: Date): (r: Option<int>)
    ensures r.None? <==> t.dueDate.None?
    ensures r.Some? ==> t.dueDate.value == today + r.value
    ensures IsOverdue(t, today) <==> r.Some? && r.value < 0 && IsOpen(t.status)
  {
    match t.dueDate
    case None => None
    case Some(d) => Some(d - today)
  }

  /** Python truthiness of an optional count: present and not zero. */
  predicate Truthy(h: Option<nat>) {
    h.Some? && h.value != 0
  }

  /** `Task.hours_variance`: actual minus estimated, only when both are truthy. */
  function HoursVariance(t: Task): (r: Option<int>)
    ensures r.Some? <==> Truthy(t.estimatedHours) && Truthy(t.actualHours)
    ensures r.Some? ==> t.estimatedHours.value + r.value == t.actualHours.value
  {
    if Truthy(t.estimatedHours) && Truthy(t.actualHours) then
      Some(t.actualHours.value - t.estimatedHours.value)
    else None
  }

  // ---------------------------------------------------------------------------
  // Project schedule
  // ---------------------------------------------------------------------------

  /** `Project.days_remaining`: target minus today, or 0 without a target. */
  function DaysRemaining(p: Project, today: Date): (r: int)
    ensures p.targetDate.None? ==> r == 0
    ensures p.targetDate.Some? ==> today + r == p.targetDate.value
  {
    match p.targetDate
    case None => 0
    case Some(t) => t - today
  }

  /** `Project.is_overdue`: today is past the target date. */
  predicate ProjectIsOverdue(p: Project, today: Date) {
    p.targetDate.Some? && today > p.targetDate.value
  }

  function Abs(x: int): nat {
    if x < 0 then -x else x
  }

  /** `Project.days_overdue`: how far past the target, 0 when not overdue. */
  function DaysOverdue(p: Project, today: Date): (r: nat)
    ensures r > 0 <==> ProjectIsOverdue(p, today)
    ensures ProjectIsOverdue(p, today) ==> r == today - p.targetDate.value
    ensures ProjectIsOverdue(p, today) <==> DaysRemaining(p, today) < 0
  {
    if ProjectIsOverdue(p, today) then Abs(DaysRemaining(p, today)) else 0
  }

  // ---------------------------------------------------------------------------
  // Decisions
  // ---------------------------------------------------------------------------

  /** `Decision.days_since_creation`. */
  function DaysSinceCreation(d: Decision, today: Date): (r: int)
    ensures d.createdDate + r == today
  {
    today - d.createdDate
  }

  /** `Decision.is_pending_too_long`: still pending more than 30 days after creation. */
  predicate IsPendingTooLong(d: Decision, today: Date) {
    d.status == "pending" && DaysSinceCreation(d, today) > 30
  }

  lemma PendingTooLongMeans(d: Decision, today: Date)
    ensures IsPendingTooLong(d, today) <==> d.status == "pending" && today >= d.createdDate + 31
  {
  }

  // ---------------------------------------------------------------------------
  // Integrations
  // ---------------------------------------------------------------------------

  /** `Integration.complexity_multiplier`; an unknown complexity weighs 1.0. */
  function ComplexityMultiplier(complexity: string): (m: real)
    ensures m == 1.0 || m == 1.5 || m == 2.5
    ensures complexity == "medium" ==> m == 1.5
    ensures complexity == "complex" ==> m == 2.5
    ensures complexity !in ["medium", "complex"] ==> m == 1.0
  {
    if complexity == "simple" then 1.0
    else if complexity == "medium" then 1.5
    else if complexity == "complex" then 2.5
    else 1.0
  }

  /**
   * `Integration.estimated_hours`: 40 hours a week, weighted by complexity. The products
   * are whole numbers, so the rounding changes nothing.
   */
  function EstimatedHours(i: Integration): (h: nat)
    ensures h as real == (i.estimatedWeeks * 40) as real * ComplexityMultiplier(i.complexity)
    ensures i.complexity == "simple" ==> h == 40 * i.estimatedWeeks
    ensures i.complexity == "medium" ==> h == 60 * i.estimatedWeeks
    ensures i.complexity == "complex" ==> h == 100 * i.estimatedWeeks
  {
    var w := i.estimatedWeeks;
    var base := w * 40;
    if i.complexity == "medium" then
      assert base * 3 / 2 == 60 * w;
      assert (base as real) * 1.5 == (60 * w) as real;
      base * 3 / 2
    else if i.complexity == "complex" then
      assert base * 5 / 2 == 100 * w;
      assert (base as real) * 2.5 == (100 * w) as real;
      base * 5 / 2
    else base
  }

  const SelfIntegrationError := "Cannot integrate an application with itself."
  const CrossProjectError := "Can only integrate applications within the same project."

  /**
   * `Integration.clean`: the error it raises, if any. Model equality is by primary key,
   * and a self-link is reported before a cross-project link.
   */
  function IntegrationClean(fromApp: Application, toApp: Application): (err: Option<string>)
    ensures err.None? <==> fromApp.id != toApp.id && fromApp.projectId == toApp.projectId
    ensures fromApp.id == toApp.id ==> err == Some(SelfIntegrationError)
    ensures fromApp.id != toApp.id && fromApp.projectId != toApp.projectId ==> err == Some(CrossProjectError)
  {
    if fromApp.id == toApp.id then Some(SelfIntegrationError)
    else if fromApp.projectId != toApp.projectId then Some(CrossProjectError)
    else None
  }
}
