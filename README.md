# FamilyHub Development Tracker: the rules under the views

FamilyHub Development Tracker is a Django application for tracking family software projects. Each project has applications. Each application has tasks, artifacts and decisions, and applications are linked by integrations. Most of the code is ORM queries, templates and admin configuration. This project models the layer of small rules on top of that, written over in-memory records instead of a database:

- the derived metrics of the models (`tracker/models.py`): completion percentages, overdue counts, schedule figures, decision age, the integration estimate and validation;
- the validators and normalisers of the forms (`tracker/forms.py`), including the two `save` methods that rewrite a field of the instance;
- the bulk task update of the HTML view and the two task-mutating JSON endpoints, as in-place updates of a task table;
- search, dashboard rates, the project timeline, a task's time variance and the footer statistics (`tracker/views.py`);
- the JSON search, suggestions, project progress and dashboard widgets (`tracker/api_views.py`);
- the `export_project_data` management command: kind selection, project scoping, JSON record shaping, CSV naming, the Excel workbook and summary, and the output path.

Each table of a snapshot is a sequence in its model's default ordering (`Meta.ordering`, such as `-created_at` for projects or `project, name` for applications), so a `[:n]` slice keeps the first n elements of the sequence. Dates are day numbers. "Today" and "now" are parameters. A database snapshot is a record of sequences linked by ids. `api_views.py` and `export_project_data.py` each read the records through their own field names and statuses, so each has its own record shape here: `ApiViews.ApiTask` and `Export.Record`.

## Layout

| file | module | models |
|---|---|---|
| `wrappers.dfy` | `Wrappers` | `Option` and `Result` |
| `seqs.dfy` | `Seqs` | the queryset operations `filter`, `count` and `[:n]` over sequences, with their counting lemmas |
| `text.dfy` | `Text` | the Python string operations: `strip`, `split`, `join`, `rsplit`, `lower`, `icontains`, `int()` and `str()` |
| `models.dfy` | `Models` | `tracker/models.py` |
| `forms.dfy` | `Forms` | `tracker/forms.py` |
| `views.dfy` | `Views` | `tracker/views.py` |
| `api_views.dfy` | `ApiViews` | `tracker/api_views.py` |
| `export.dfy` | `Export` | `tracker/management/commands/export_project_data.py` |

Some source loops are modelled as methods with loop invariants: the percentage and overdue loops of `Project`, the timeline, the result lists of the API views, and the steps and loops of the export command. Each such method is proved equal to a specification function. The properties are then proved about those functions. The two tables that the source changes in place are classes with a `rows` map: `Views.TaskTable` and `ApiViews.ApiTaskTable`. So are the two form instances whose field `save` rewrites: `Forms.ApplicationInstance` and `Forms.ArtifactInstance`.

## Model

| member | source | states |
|---|---|---|
| Models.Percent | tracker/models.py:49-61 | A guarded percentage. It is 0 for an empty total. Otherwise it is exactly `100 * completed / total`. It lies in [0, 100]. It is 0 iff nothing is completed, and 100 iff everything is. |
| Models.CompletionPercentage | tracker/models.py:49-61 | The loop over the project's applications adds up the counts of tasks and of completed tasks. The result is `Percent` of those sums, which lies in [0, 100] and is 0 when the project has no tasks. |
| Models.AppCompletion | tracker/models.py:151-157 | An application's completion lies in [0, 100]. It is 0 iff none of its tasks is completed, and 100 iff it has tasks and all are completed. |
| Models.OverdueNeedsOpenPastDue | tracker/models.py:283-287 | Completed and blocked tasks are never overdue, and marking a task completed clears it. A task without a due date is never overdue. A task overdue today stays overdue on every later day. |
| Models.AppOverdueCount | tracker/models.py:160-166 | The application's overdue query counts at most its tasks. |
| Models.AppOverdueCountIsOverdue | tracker/models.py:160-166 | The ORM filter of the application count counts exactly the tasks that `Task.is_overdue` flags. |
| Models.ProjectOverdueCount | tracker/models.py:64-75 | The loop adds the per-application overdue counts over the project's applications. |
| Models.SumOverAppsFlat | tracker/models.py:64-75 | Over applications with distinct ids, summing per-application counts equals counting, over all tasks, those of one of the applications that satisfy the predicate. |
| Models.ProjectOverdueIsOverdue | tracker/models.py:64-75 | With distinct application ids, the project's overdue count is the number of the project's tasks that `Task.is_overdue` flags. |
| Models.AppsOfIds | tracker/models.py:64-75 | An id belongs to the project's applications iff some application with that id has that project. |
| Models.DaysUntilDue | tracker/models.py:290-295 | Absent iff there is no due date. Otherwise due date = today + result. A task is overdue iff the result is negative and its status is open. |
| Models.HoursVariance | tracker/models.py:298-302 | Present iff both hour counts are truthy, so a 0 in either gives None. Then estimated + variance = actual. |
| Models.DaysRemaining | tracker/models.py:88-93 | 0 without a target date; otherwise today + result = target. |
| Models.DaysOverdue | tracker/models.py:96-107 | Positive iff the project is overdue (today after the target), and then equal to today − target. Overdue iff days remaining is negative. |
| Models.DaysSinceCreation | tracker/models.py:344-346 | Creation date + result = today. |
| Models.PendingTooLongMeans | tracker/models.py:344-351 | A decision is pending too long iff it is pending and today is at least 31 days after its creation. |
| Models.ComplexityMultiplier | tracker/models.py:415-422 | Simple weighs 1.0, medium 1.5 and complex 2.5. An unknown complexity weighs 1.0, so the multiplier is always one of the three. |
| Models.EstimatedHours | tracker/models.py:425-428 | The hours equal weeks × 40 × multiplier, with no rounding left. That is 40w for simple, 60w for medium and 100w for complex. |
| Models.IntegrationClean | tracker/models.py:430-438 | No error iff the applications differ and share a project. A self-link gets the self-link message, checked first. A cross-project link gets the cross-project message. |
| Forms.ProjectFormClean | tracker/forms.py:62-74 | An error iff both dates are present and the target is not after the start, so equal dates are rejected. A missing date is always accepted. |
| Forms.StripNonBlank | tracker/forms.py:143-150 | The comprehension keeps at most as many lines as it is given. Each kept line is non-empty and stripped. |
| Forms.StripNonBlankOne | tracker/forms.py:147-149 | A single line gives its stripped text, or nothing when it is blank. |
| Forms.StripNonBlankAppend | tracker/forms.py:147-149 | The comprehension distributes over concatenation: the lines of `a + b` clean to those of `a` followed by those of `b`. |
| Forms.StripNonBlankWithout | tracker/forms.py:143-150 | A character absent from every line is absent from every cleaned line. |
| Forms.CleanFeaturesText | tracker/forms.py:143-150 | An empty text gives no features. Every feature returned is non-empty, stripped and contains no newline. |
| Forms.CleanFeaturesLines | tracker/forms.py:143-150 | Cleaning a text is cleaning its newline-split lines, the empty text included. |
| Forms.CleanFeaturesLine | tracker/forms.py:143-150 | A text of one line gives its stripped text as the one feature, or none when it is blank. |
| Forms.CleanFeaturesCons | tracker/forms.py:143-150 | The features of `line + "\n" + rest` are those of the line followed by those of the rest. |
| Forms.StripNonBlankClean | tracker/forms.py:143-150 | Cleaning lines that are already clean features leaves them unchanged. |
| Forms.CleanFeaturesJoin | tracker/forms.py:106-150 | For clean features, cleaning `'\n'.join(features)` gives the same list back. |
| Forms.InitialFeaturesText | tracker/forms.py:106-111 | The initial text is blank for an unsaved application or empty features. For a saved application with clean features, cleaning it gives those features back. |
| Forms.ApplicationInstance.Save | tracker/forms.py:152-158 | `save` sets the features to the cleaned text, which holds only clean features, and keeps the key. |
| Forms.EditAndSave | tracker/forms.py:106-158 | Opening a saved application with clean features and saving the unchanged form keeps its features. |
| Forms.FileExtension | tracker/forms.py:251 | The lower-cased text after the last dot, or the whole name lower-cased when there is no dot. It contains no dot. |
| Forms.CleanFileUpload | tracker/forms.py:238-257 | The upload is accepted iff it is absent or falsy, or it is at most 10·1024·1024 bytes with an allowed extension; an accepted file is returned unchanged. It is rejected as too large iff it is present and bigger than 10 MB. |
| Forms.SplitShowVersion | tracker/forms.py:268-270 | `f"{M}.{m}"` splits at its single dot into the two numbers. |
| Forms.ParseShowVersion | tracker/forms.py:268-270 | `f"{M}.{m}"` parses back as `(M, m)`. |
| Forms.ShowVersionOneOne | tracker/forms.py:273 | The fallback version written for an unparsable version is the text `1.1`. |
| Forms.NextVersion | tracker/forms.py:259-277 | Without incrementing a saved artifact, an empty version becomes `1.0` and any other version is kept. |
| Forms.NextVersionBumps | tracker/forms.py:264-270 | Incrementing a saved artifact's `M.m` gives `M.(m+1)`, which parses as `(M, m+1)`. |
| Forms.NextVersionUnparsed | tracker/forms.py:264-273 | Incrementing a version that is not two integers gives `1.1`. |
| Forms.NextVersionBumpsMinor | tracker/forms.py:264-270 | Incrementing a version written from two ints adds one to the minor number. |
| Forms.ArtifactInstance.Save | tracker/forms.py:259-280 | `save` sets the version to `NextVersion` of the old version, the increment flag and whether the artifact is saved. It keeps the key. |
| Forms.TaskFormClean | tracker/forms.py:348-368 | A past due date is an error only on a new task. Actual hours over twice the estimate, both truthy, add an error on `actual_hours`, unless the due-date error was raised first. At most one error, and no error iff neither condition holds. |
| Forms.ParseIdPieces | tracker/forms.py:499-505 | The list comprehension fails iff some non-blank piece is not an integer. Otherwise it gives at most one id per piece. |
| Forms.ParseIdPiecesOne | tracker/forms.py:499-505 | One piece: a blank one gives no id, one `int` reads gives that id, and any other fails. |
| Forms.ParseIdPiecesCons | tracker/forms.py:499-505 | The first piece is read before the rest: it is skipped when blank, fails the whole list when `int` rejects it, and otherwise leads the ids of the rest. |
| Forms.ParseIdPiecesAppend | tracker/forms.py:499-505 | The pieces of `a + b` parse to the ids of `a` followed by those of `b`, and fail iff either part fails. |
| Forms.ParseIdsCons | tracker/forms.py:499-505 | The selection `piece,rest` parses to the ids of the piece followed by those of the rest. |
| Forms.ShowInts | tracker/forms.py:500 | One decimal text per id, in order. |
| Forms.ParseShowInts | tracker/forms.py:499-503 | The decimal texts of ids parse back as those ids. |
| Forms.ParseIdsJoin | tracker/forms.py:499-503 | `','.join(map(str, ids))` parses back as `ids`. |
| Forms.BulkTaskClean | tracker/forms.py:477-507 | A missing assignee for `change_assignee`, or a missing date for `update_due_date`, fails first. After those checks: an empty selection is `No tasks selected`, a selection that does not parse is the format error, one that parses to no ids is `No valid task IDs`, and each holds iff its condition does. A success is exactly a non-empty parse of the selection. |
| Forms.BulkTaskFormValid | tracker/forms.py:426-507 | A form is valid iff the field checks pass (a known action, an empty or known assignee, a non-blank selection) and `clean` accepts the stripped selection. A valid form carries its fields and a non-empty id list parsed from the stripped selection. `change_assignee` has a known assignee and `update_due_date` has a date. |
| Forms.BulkTaskFormAccepts | tracker/forms.py:426-507 | A status action with the page's comma-joined ids is accepted as exactly those ids. |
| Forms.IntegrationFormClean | tracker/forms.py:603-618 | No error iff an application is missing, or the two differ and share a project. The same application twice is an error on `to_app`. Different projects are an error on the form. |
| Forms.IntegrationFormAgreesWithModel | tracker/forms.py:603-618 | The form accepts a pair of applications iff `Integration.clean` (tracker/models.py:430-438) does. |
| Views.ReplaceChar | tracker/views.py:633-634 | `replace('_', '-')` keeps the length and replaces exactly the underscores. |
| Views.TaskTable.BulkTaskOperations | tracker/views.py:622-651 | An invalid form changes nothing and reports 0. A valid one applies `BulkApply` to the table and reports the number of existing rows whose id was selected. The table stays keyed by id. |
| Views.BulkApplyKeepsIds | tracker/views.py:630-648 | The update keeps every row under its own id. |
| Views.BulkApplyFrame | tracker/views.py:630-648 | No row is added or removed, and a task outside the selection is unchanged. |
| Views.BulkApplyOneField | tracker/views.py:633-648 | On a selected task only the field the action names changes. A status action sets the status to the action with `_` replaced by `-`, so `in_progress` writes `in-progress`. Assignee and due-date actions write the form's value. |
| Views.StatusActionValues | tracker/views.py:633-634 | `in_progress` sets `in-progress`, `pending` sets `pending`, and `complete` sets `complete`. |
| Views.CompleteActionStatus | tracker/views.py:633-634 | `complete` writes a status outside the status choices of a task. A task it touches then counts neither as completed nor as overdue. |
| Views.MatchedIdsBound | tracker/views.py:630-651 | The reported count covers only existing rows and is at most the number of distinct selected ids. |
| Views.DaysBack | tracker/views.py:33-37 | An absent `date_range` gives 30. A value `int()` accepts gives that value. Any other gives 30. |
| Views.CompletionRate | tracker/views.py:70-83 | A rate lies in [0, 100]. It is 0 over an empty collection. Otherwise rate × total = 100 × completed. |
| Views.DashboardRates | tracker/views.py:41-83 | All rates in [0, 100]. They are the completion rates of completed projects among the filtered projects, production applications among their applications, and completed tasks among those applications' tasks. |
| Views.ApiStatsCompletionRate | tracker/views.py:918-925 | In [0, 100]. 0 with no tasks. Otherwise rate × tasks = 100 × completed tasks. |
| Views.TimeVariance | tracker/views.py:588-594 | Present iff both hour counts are truthy. The hours are actual − estimated, and percentage × estimated = 100 × hours. |
| Views.SearchView | tracker/views.py:729-798 | An invalid form, or a missing type, leaves every list empty. Otherwise each selected kind holds its first ten matches in the order of its table, and the other kinds are empty. The total is the sum of the six lengths and at most 60. |
| Views.EntriesOf | tracker/views.py:219-227 | One timeline entry per task, in order. |
| Views.TimelineLength | tracker/views.py:217-227 | The timeline has at most three entries per application. |
| Views.BuildTimeline | tracker/views.py:217-227 | The nested loop builds the entries of each application's first three tasks, application after application. |
| Views.Insert | tracker/views.py:234 | Insertion adds exactly the one entry. |
| Views.InsertBound | tracker/views.py:234 | Insertion keeps a common upper bound on the keys. |
| Views.InsertSorted | tracker/views.py:234 | Inserting into a sorted timeline keeps it sorted. |
| Views.SortTimeline | tracker/views.py:234 | The sorted timeline is a permutation of the timeline. |
| Views.SortTimelineSorted | tracker/views.py:234 | The sorted timeline is ordered by due date, with a missing date counting as today. |
| ApiViews.CharValue | tracker/api_views.py:150-153 | A character column gets null for null, the text for a string, and the decimal text for a number. |
| ApiViews.ForeignKeyValue | tracker/api_views.py:154-155 | A user key accepts null, the empty string (saved as null), a number, or a string that `int()` accepts, and nothing else. |
| ApiViews.UpdateMatched | tracker/api_views.py:147-155 | The update keeps the keys and leaves unmatched rows as they were. It applies the change to every matched row. |
| ApiViews.BulkUpdateOutcome | tracker/api_views.py:139-161 | The update fails, as a 400 that changes nothing, exactly when a `status` or `priority` update writes null into at least one matched row, or an `assigned_to` value is not null, the empty string, a number or an integer string. A success reports the number of matched rows. An unknown or missing action changes nothing and still succeeds. No unselected row changes and no row is added. |
| ApiViews.ApiTaskTable.BulkUpdate | tracker/api_views.py:139-161 | The table and response are exactly those of `BulkUpdateOutcome`. The table stays keyed by id. |
| ApiViews.BulkUpdateKeepsIds | tracker/api_views.py:147-155 | The update keeps every row under its own id. |
| ApiViews.BulkUpdateOneField | tracker/api_views.py:147-155 | On a matched task, a successful update changes only the column the action names, plus the stamp. |
| ApiViews.BulkUnassignByEmptyString | tracker/api_views.py:154-158 | An `assigned_to` of `""` succeeds and unassigns every matched task. |
| ApiViews.ApiTaskTable.StatusUpdate | tracker/api_views.py:167-183 | A missing task is a 404 and a null status a 400; both change nothing. Otherwise only that task's status and stamp change, and the response carries the new status. |
| ApiViews.ProjectHits | tracker/api_views.py:61-71 | Entry i is the hit of project i: its kind, id, name, description cut to 100 characters, URL and status. |
| ApiViews.AppHits | tracker/api_views.py:78-88 | Entry i is the hit of application i, carrying the name of its project. |
| ApiViews.TaskHits | tracker/api_views.py:95-106 | Entry i is the hit of task i, carrying its status and priority. |
| ApiViews.ProjectHitsShape | tracker/api_views.py:61-71 | Every project hit is of kind `project` with a description of at most 100 characters. |
| ApiViews.AppHitsShape | tracker/api_views.py:78-88 | Every application hit is of kind `application` with a description of at most 100 characters. |
| ApiViews.TaskHitsShape | tracker/api_views.py:95-106 | Every task hit is of kind `task` with a description of at most 100 characters. |
| ApiViews.ApiSearch | tracker/api_views.py:46-107 | The loops build `ApiSearchResults`. That is empty for a blank stripped query. Otherwise it is the hits of the first five matching projects, then applications, then tasks. |
| ApiViews.AppendProjectHits | tracker/api_views.py:61-71 | The project loop appends one hit per project. |
| ApiViews.AppendAppHits | tracker/api_views.py:78-88 | The application loop appends one hit per application. |
| ApiViews.AppendTaskHits | tracker/api_views.py:95-106 | The loop over tasks appends one hit per task. |
| ApiViews.ApiSearchBounds | tracker/api_views.py:46-107 | A blank query gives nothing. At most 15 hits, each of a known kind, each description at most 100 characters. |
| ApiViews.Suggestions | tracker/api_views.py:111-128 | A stripped query shorter than 2 gives nothing. Otherwise there are up to three `Project: <name>` entries, then up to three `App: <name>` entries, at most six. |
| ApiViews.ProgressOf | tracker/api_views.py:268-279 | An application's progress is `Percent` of its completed tasks over its tasks, in [0, 100], and carries both counts. |
| ApiViews.ProgressList | tracker/api_views.py:267-279 | One progress entry per application, in order. |
| ApiViews.ProgressListBounds | tracker/api_views.py:267-279 | Every progress lies in [0, 100]. |
| ApiViews.ProjectProgress | tracker/api_views.py:260-295 | A 404 iff the project does not exist. Otherwise the name and one progress entry per project application, each in [0, 100]. |
| ApiViews.ProjectNameOf | tracker/api_views.py:426 | Null for a null key. A name is that of a project with the key, and a key of an existing project gives a name. |
| ApiViews.AppNameOf | tracker/api_views.py:427 | Null for a null key. A name is that of an application with the key, and a key of an existing application gives a name. |
| ApiViews.OverdueWidget | tracker/api_views.py:415-435 | At most 10 rows: the first ten overdue open tasks in the order of the task table. Each row has the task's id and title, the name of its project and of its application or null, days overdue = today − due date > 0 and that task's URL. |
| ApiViews.ScheduleScore | tracker/api_views.py:449-462 | The score lies in [0, 1]. It is 1.0 without both dates or with expected progress ≤ 0. Otherwise it is min(1, completion / expected). |
| ApiViews.ExpectedProgress | tracker/api_views.py:451-456 | 0 when the plan has no positive length. Otherwise expected × planned days = 100 × elapsed days. |
| ApiViews.ProjectHealth | tracker/api_views.py:446-477 | The health score lies in [0, 100]. The project is overdue iff it has a target date before today, as `Project.is_overdue` says. |
| ApiViews.ScheduleOnTrack | tracker/api_views.py:456-460 | A project at or ahead of its positive expected progress scores 1.0. |
| ApiViews.ScheduleBehind | tracker/api_views.py:456-460 | A project behind schedule scores below 1.0, and score × expected = completion. |
| ApiViews.HealthWidget | tracker/api_views.py:439-481 | One row per project, in order, each its `ProjectHealth` with a score in [0, 100]. |
| Export.SelectProject | tracker/management/commands/export_project_data.py:57-65 | An absent or 0 project exports everything. Another id is an error iff no project has it, with the `not found` message. A found project is that project. |
| Export.PathJoin | tracker/management/commands/export_project_data.py:100-102 | POSIX `os.path.join`: an absolute second part replaces the first, and a slash is added only when needed. |
| Export.GetOutputPath | tracker/management/commands/export_project_data.py:89-102 | A non-empty custom path is returned unchanged. Otherwise the path is `familyhub_export_<timestamp>.<format>` in `exports` under the base directory. |
| Export.TrimSlashes | tracker/management/commands/export_project_data.py:69 | Removes exactly the trailing slashes. |
| Export.Dirname | tracker/management/commands/export_project_data.py:69 | POSIX `os.path.dirname`: empty iff the path has no slash. Otherwise it is the prefix up to and including the last slash, when that prefix is all slashes, and that prefix with its trailing slashes removed otherwise. |
| Export.DefaultPathHasDirectory | tracker/management/commands/export_project_data.py:69-102 | The default path always has a directory to create. |
| Export.MakeDirsAsWritten | tracker/management/commands/export_project_data.py:69 | As written, the directory step fails iff the path has no slash. |
| Export.BareOutputNameFails | tracker/management/commands/export_project_data.py:69-87 | `--output export.json` makes the export fail. |
| Export.OutputDirectory | tracker/management/commands/export_project_data.py:69 | The directory to create: none iff the path has no slash, otherwise the non-empty dirname. |
| Export.KindObjectsScoped | tracker/management/commands/export_project_data.py:104-146 | With a project, each kind other than projects keeps exactly its records linked to that project. Applications, tasks and decisions are linked through their project. Artifacts are linked through their application's project, and integrations through their source application's project. |
| Export.KindObjectsAll | tracker/management/commands/export_project_data.py:104-146 | Without a project, every exported kind carries its whole table. |
| Export.IncludedKindsMembers | tracker/management/commands/export_project_data.py:104-146 | A kind is visited iff `--include` names it. |
| Export.DefaultIncludesAll | tracker/management/commands/export_project_data.py:45-51 | The default `--include` visits all six kinds in the fixed order. |
| Export.Kinds | tracker/management/commands/export_project_data.py:164 | The keys of the `data` dict, in order. |
| Export.Entries | tracker/management/commands/export_project_data.py:104-146 | One entry per visited kind. |
| Export.EntriesAppend | tracker/management/commands/export_project_data.py:104-146 | The entries of two kind lists in sequence are the two entry lists concatenated. |
| Export.EntriesAt | tracker/management/commands/export_project_data.py:104-146 | Each entry pairs a kind with that kind's records. |
| Export.FilteredDataKeys | tracker/management/commands/export_project_data.py:104-146 | The dict has a key for a kind iff `--include` names it. |
| Export.GetFilteredData | tracker/management/commands/export_project_data.py:104-146 | The six include tests build `FilteredData`. |
| Export.AddKindData | tracker/management/commands/export_project_data.py:108-144 | One include test adds that kind's entry exactly when the kind is included. |
| Export.ObjDataKeys | tracker/management/commands/export_project_data.py:164-218 | The keys of one serialized record: id, the time stamps, the shared text attributes it has, the link keys for the links it has, and the kind's own keys. |
| Export.KindFieldsLeaveLinks | tracker/management/commands/export_project_data.py:194-218 | No kind writes the id or a link key itself. |
| Export.ObjDataLinks | tracker/management/commands/export_project_data.py:169-191 | A serialized record carries its id, and the id and name of each link it has, null for a null link. |
| Export.ObjDataShared | tracker/management/commands/export_project_data.py:176-183 | A shared text attribute is copied as it is, unless the kind writes that key itself. |
| Export.ObjDataKindFields | tracker/management/commands/export_project_data.py:194-218 | A kind's own key carries that attribute, or null. |
| Export.ObjDataList | tracker/management/commands/export_project_data.py:167-220 | One serialized record per record. |
| Export.ObjDataListAt | tracker/management/commands/export_project_data.py:167-220 | The i-th serialized record is the i-th record serialized. |
| Export.SerializeTotal | tracker/management/commands/export_project_data.py:164-228 | Dropping empty kinds does not change the record count the command reports. |
| Export.SerializeKinds | tracker/management/commands/export_project_data.py:164-222 | A kind appears in the JSON `data` iff one of its entries has records. |
| Export.EntriesHasRecords | tracker/management/commands/export_project_data.py:104-146 | A visited kind has records iff it is in the list and its scoped records are not empty. |
| Export.JsonKinds | tracker/management/commands/export_project_data.py:104-222 | The JSON `data` holds a kind iff it is included and has records. |
| Export.SerializeObjects | tracker/management/commands/export_project_data.py:167-220 | The inner loop builds `ObjDataList`. |
| Export.ExportJson | tracker/management/commands/export_project_data.py:148-228 | The document carries the time, `json`, the project name or `all`, and the include list. Its data is the serialized non-empty kinds, and the reported count is the total number of records. |
| Export.Ids | tracker/management/commands/export_project_data.py:251-299 | One row id per record, in order. |
| Export.CsvFileOf | tracker/management/commands/export_project_data.py:243-299 | The file is `<base>_<kind>.csv`. For projects, applications and tasks it has a header and one row per record. For other kinds it is empty, with no header. |
| Export.CsvFilesFromKinds | tracker/management/commands/export_project_data.py:239-243 | Every file written belongs to a kind with records. |
| Export.CsvFilesCoverKinds | tracker/management/commands/export_project_data.py:239-243 | Every kind with records gets its file. |
| Export.CsvBaseOfDotted | tracker/management/commands/export_project_data.py:237 | For an output path `<stem>.<suffix>`, the base of the file names is `<stem>`. |
| Export.WriteCsv | tracker/management/commands/export_project_data.py:243-299 | The `with open` block writes `CsvFileOf` for the kind. |
| Export.ExportCsv | tracker/management/commands/export_project_data.py:230-301 | One file per kind with records, in visiting order, named after the output path without its last `.suffix`. |
| Export.Capitalize | tracker/management/commands/export_project_data.py:329 | `str.capitalize` keeps the length, upper-cases the first character and lowers the others. |
| Export.FrameOf | tracker/management/commands/export_project_data.py:332-376 | One sheet row per record, tagged with its kind. |
| Export.SheetsCarryOver | tracker/management/commands/export_project_data.py:332-384 | As written, a project followed by an artifact gives an Artifacts sheet with the project's row. |
| Export.SheetsUnbound | tracker/management/commands/export_project_data.py:332-379 | As written, exporting only artifacts fails. |
| Export.SheetsOwnRows | tracker/management/commands/export_project_data.py:324-389 | Corrected: every sheet belongs to a kind with records. Its rows come from its own kind, and a kind without a layout gets an empty sheet. |
| Export.SheetsCoverKinds | tracker/management/commands/export_project_data.py:324-389 | Corrected: every kind with records gets a sheet titled after it, holding its rows when it has a layout and none otherwise. |
| Export.SummaryCounts | tracker/management/commands/export_project_data.py:399-400 | One `(Kind, count)` row per visited kind, empty kinds included. |
| Export.AddSheets | tracker/management/commands/export_project_data.py:324-389 | The worksheet loop builds the corrected `Sheets`. |
| Export.AddSummaryCounts | tracker/management/commands/export_project_data.py:399-400 | The summary loop builds `SummaryCounts`. |
| Export.ExportExcel | tracker/management/commands/export_project_data.py:303-409 | Corrected: the workbook has the corrected worksheets of `Sheets` and the summary: the time, the project name or `All Projects`, and a count per visited kind. The message reports the number of visited kinds as sheets, and the total number of records. |
| Export.Handle | tracker/management/commands/export_project_data.py:54-87 | Corrected: with the directory step of `OutputDirectory`, an unknown project is the only failure, reported as `Error exporting data: …`. Otherwise the run has the output path and the directory to create, if any, then dispatches by format. An unknown format writes nothing. |
| Seqs.FindBy | tracker/views.py:770-777 | `get(pk=id)` over a list: a found element is in the list and has the key; nothing is found iff no element has it. |
| Text.Strip | tracker/api_views.py:48 | `str.strip()` gives a stripped slice of the input. |
| Text.StripRemovesSpace | tracker/api_views.py:48 | What `strip()` removes from either end is whitespace. |
| Text.StripEmpty | tracker/forms.py:500 | `strip()` leaves nothing iff the string is blank. |
| Text.Split | tracker/forms.py:147 | `split` gives at least one piece, and no piece holds the separator. |
| Text.SplitJoin | tracker/forms.py:111-147 | Splitting a join gives back pieces that do not hold the separator. |
| Text.JoinSplit | tracker/forms.py:111-147 | Joining the pieces of a split gives back the string. |
| Text.RsplitHead | tracker/management/commands/export_project_data.py:237 | `rsplit('.', 1)[0]` is the whole string when there is no dot. Otherwise it is what precedes the last dot. |
| Text.StripStripped | tracker/forms.py:148 | `strip()` leaves a string without surrounding whitespace unchanged. |
| Text.LastIndexOf | tracker/management/commands/export_project_data.py:237 | None iff the character does not occur. Otherwise the index of its last occurrence. |
| Text.Lower | tracker/forms.py:251 | `lower()` keeps the length and lowers each ASCII capital in place. |
| Text.Truncate | tracker/api_views.py:66 | `s[:100]` is a prefix of at most 100 characters. |
| Text.ParseShow | tracker/forms.py:500 | `int(str(i)) == i`. |

## Left out

- Database and framework. The ORM queries are filters over sequences. Transactions, `select_related`, pagination and chart aggregation are not modelled. Templates, messages, redirects, URL routing, login decorators, the admin, `accounts/*` and the two data-population scripts are left out too.
- File and environment I/O in the export: `open`, `json.dump`, `csv.DictWriter`, `os.makedirs`, the openpyxl and pandas workbook, and cell styling. Output files are values. A CSV or Excel row is recorded only by the id of its record, and the path and directory are returned, not created. The `ImportError` path of `export_excel` is left out.
- Times. `timezone.now()`, `datetime.now()` and `today` are parameters. Dates are day numbers. Time stamps in export records are attribute texts.
- Floating point. Percentages and scores are exact reals, and `round(x, 1)` is not applied. The contracts state the ratio before rounding.
- Models.CompletionPercentage, Models.AppCompletion, ApiViews.ProgressOf, Views.ApiStatsCompletionRate: these omit the final `round(..., 1)`, so the value the source returns may differ from the stated ratio by up to 0.05.
- ApiViews.ProjectHealth: does not state the blended score `(completion/100 × 0.6 + schedule × 0.4) × 100` beyond its bounds, because that expression is pure float arithmetic that is rounded afterwards.
- ApiViews.ProjectProgress: the project-level `completion_percentage`, `total_tasks` and `completed_tasks` fields are not modelled. `Project` has no `total_tasks` or `completed_tasks` attribute, and `app.task_set` is not the name of the Application–Task relation in tracker/models.py. The model follows the endpoint's own task schema.
- ApiViews.HealthWidget: each project's `completion_percentage` is an input, because it depends on a task schema that api_views.py does not share with tracker/models.py.
- ApiViews.ApiTaskTable.StatusUpdate: the response carries the stored status, not `get_status_display()`. The display labels of the API's task schema are not part of this model.
- ApiViews.BulkUpdateOutcome, ApiViews.ApiTaskTable.StatusUpdate: the request body is already decoded. The 400s of both endpoints for a body that is not JSON or not an object are not modelled, nor, for the bulk update, a `task_ids` that is not a list or an id string `int()` rejects. JSON booleans, floats and lists as the bulk `value` or as the new `status` are not modelled either, so `str(value)` of such a value in a text column and `int(True)` as a user key are missing.
- Views.DaysBack: returns any number `int()` accepts. A `date_range` too large for `timedelta`, or one that moves the cutoff before year 1, makes `timezone.now() - timedelta(days=days_back)` raise `OverflowError`, an uncaught server error; the cutoff date itself is not modelled.
- ApiViews.ProjectNameOf, ApiViews.AppNameOf: a key with no matching record reads as null rather than raising, as the database's foreign keys rule that case out.
- Export.Handle, Export.ExportExcel: these use the corrected directory step (`OutputDirectory`) and the corrected worksheets (`Sheets`). As written, `--output export.json` fails (Export.MakeDirsAsWritten, Export.BareOutputNameFails), and an Excel export fails when a kind without a sheet layout (artifacts, decisions, integrations) has records before any kind with one, and otherwise gives such a kind the rows of the last laid-out kind before it (Export.SheetsAsWritten, Export.SheetsUnbound, Export.SheetsCarryOver).
- ApiViews.BulkUpdateOutcome: does not check that a user id given for `assigned_to` exists, because the user table is not modelled. Any integer is accepted.
- Export records read attributes with `hasattr`. A record holds the text attributes it has, and an absent one is written as null. A missing required attribute, such as a project owner, is also written as null rather than raising.
- Django form field cleaning is taken as given. CharField stripping is modelled only for the search query and the bulk selection. MaxLength other than the search query's is left out. The model-level `FileExtensionValidator` is left out. Truthiness of `instance.pk` is modelled as "the instance has a key", so a key of 0 counts as saved.
- Views.DashboardRates: the project filter is an optional integer. A `project` parameter that is not an integer makes the source raise, and that path is not modelled.
- Python `int()` on strings accepts ASCII digits only. Unicode decimal digits and the interpreter's limit on digit count are left out. Lower-casing in `icontains` and in the file extension is ASCII only.
- Views.SortTimelineSorted: proves the order and Views.SortTimeline the permutation. That `sorted` is stable is not stated. The order of NULL due dates in the database's `order_by('due_date')` is taken from the input sequence.
- Views.SearchView: the six match predicates follow the `Q` filters of the view. The database collation and `LIKE` escaping are not modelled.

## Findings

| source | as written | input that shows it | evidently intended | confidence | as-written member | corrected member |
|---|---|---|---|---|---|---|
| tracker/management/commands/export_project_data.py:332-384 | `df_data` is assigned only in the projects, applications and tasks branches and never reset. The Artifacts, Decisions and Integrations sheets therefore get the rows of the last such kind before them. If no such kind came first, the export fails with an unbound local. | One project and one artifact: the Artifacts sheet holds the project's row. Only artifacts: the export fails. | Each sheet holds only rows of its own kind. A kind without a layout gets an empty sheet. | not executed | Export.SheetsAsWritten (shown by Export.SheetsCarryOver and Export.SheetsUnbound) | Export.Sheets (proved by Export.SheetsOwnRows) |
| tracker/management/commands/export_project_data.py:69 | `os.makedirs(os.path.dirname(output_path), exist_ok=True)` is called even when the directory name is empty, and `os.makedirs('')` raises. | `--output export.json` | A bare file name is written in the working directory, with no directory to create. | not executed | Export.MakeDirsAsWritten (shown by Export.BareOutputNameFails) | Export.OutputDirectory |
