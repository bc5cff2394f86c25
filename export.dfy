/**
 * The `export_project_data` management command
 * (tracker/management/commands/export_project_data.py): which kinds of record are exported,
 * how each kind is scoped to one project, how JSON records are shaped, how CSV files are
 * named, what the Excel summary counts, and where the output goes.
 *
 * Records have their own shape here. The command reads attributes with `hasattr`, so a
 * record carries the text attributes it has in `attrs`. Its `project` and `application`
 * links may be missing or null, and an integration names its source application.
 */
module Export {
  import opened Wrappers
  import opened Seqs
  import opened Text

  /** A link to a project or an application: no such attribute, a null link, or a link. */
  datatype Link = NoAttribute | NullLink | LinkTo(id: int, name: string)

  datatype Record = Record(id: int, attrs: map<Field, string>, project: Link, application: Link,
                           fromApplication: Option<int>)

  function RecordPk(r: Record): int { r.id }

  datatype ExportDb = ExportDb(projects: seq<Record>, applications: seq<Record>, tasks: seq<Record>,
                               artifacts: seq<Record>, decisions: seq<Record>, integrations: seq<Record>)

  /** The `--include` choices. */
  datatype Kind = Projects | Applications | Tasks | Artifacts | Decisions | Integrations

  /** The name of a kind, as `--include` spells it and as the output keys and file names carry it. */
  function KindName(kind: Kind): string {
    match kind
    case Projects => "projects"
    case Applications => "applications"
    case Tasks => "tasks"
    case Artifacts => "artifacts"
    case Decisions => "decisions"
    case Integrations => "integrations"
  }

  /** The `--include` choices and its default, in the order `get_filtered_data` visits them. */
  const AllKinds: seq<Kind> := [Projects, Applications, Tasks, Artifacts, Decisions, Integrations]

  /** A project record's name; every project row has one. */
  function NameOf(r: Record): string {
    if Name in r.attrs then r.attrs[Name] else ""
  }

  // ---------------------------------------------------------------------------
  // Choosing the project and the output path
  // ---------------------------------------------------------------------------

  /**
   * The `--project` option of `handle`: absent or 0 exports everything; an id with no
   * project is an error.
   */
  function SelectProject(db: ExportDb, projectOption: Option<int>): (r: Result<Option<Record>, string>)
    ensures projectOption.None? || projectOption.value == 0 ==> r == Ok(None)
    ensures projectOption.Some? && projectOption.value != 0 ==>
      (r.Err? <==> FindBy(db.projects, RecordPk, projectOption.value).None?)
    ensures r.Err? ==> r.error == "Project with ID " + ShowInt(projectOption.value) + " not found"
    ensures r.Ok? && r.value.Some? ==> r.value.value in db.projects && Some(r.value.value.id) == projectOption
  {
    if projectOption.None? || projectOption.value == 0 then Ok(None)
    else
      match FindBy(db.projects, RecordPk, projectOption.value)
      case None => Err("Project with ID " + ShowInt(projectOption.value) + " not found")
      case Some(p) => Ok(Some(p))
  }

  /** `os.path.join(a, b)` on POSIX. */
  function PathJoin(a: string, b: string): (r: string)
    ensures b != [] && b[0] == '/' ==> r == b
    ensures (b == [] || b[0] != '/') && (a == [] || a[|a| - 1] == '/') ==> r == a + b
    ensures (b == [] || b[0] != '/') && a != [] && a[|a| - 1] != '/' ==> r == a + "/" + b
  {
    if b != [] && b[0] == '/' then b
    else if a == [] || a[|a| - 1] == '/' then a + b
    else a + "/" + b
  }

  function DefaultFileName(timestamp: string, format: string): string {
    "familyhub_export_" + timestamp + "." + format
  }

  /**
   * `get_output_path`: a non-empty custom path is used as given; otherwise the file is
   * `familyhub_export_<timestamp>.<format>` in the `exports` directory under `baseDir`.
   */
  function GetOutputPath(customPath: Option<string>, format: string, timestamp: string, baseDir: string): (r: string)
    ensures customPath.Some? && customPath.value != [] ==> r == customPath.value
    ensures customPath.None? || customPath.value == [] ==>
      r == PathJoin(PathJoin(baseDir, "exports"), DefaultFileName(timestamp, format))
  {
    if customPath.Some? && customPath.value != [] then customPath.value
    else PathJoin(PathJoin(baseDir, "exports"), DefaultFileName(timestamp, format))
  }

  predicate AllSlashes(s: string) {
    forall i :: 0 <= i < |s| ==> s[i] == '/'
  }

  /** `s.rstrip('/')`. */
  function TrimSlashes(s: string): (r: string)
    ensures |r| <= |s| && r == s[..|r|] && AllSlashes(s[|r|..])
    ensures r != [] ==> r[|r| - 1] != '/'
  {
    if s == [] || s[|s| - 1] != '/' then s
    else
      var r := TrimSlashes(s[..|s| - 1]);
      assert s[|r|..] == s[..|s| - 1][|r|..] + ['/'];
      r
  }

  /** `os.path.dirname(p)` on POSIX: the part before the last `/`, trailing slashes removed unless that is all there is. */
  function Dirname(p: string): (r: string)
    ensures r == [] <==> '/' !in p
    ensures '/' in p ==>
      var head := p[..LastIndexOf(p, '/').value + 1];
      && |r| <= |head| && r == p[..|r|] && AllSlashes(p[|r|..|head|])
      && (AllSlashes(head) ==> r == head)
      && (!AllSlashes(head) ==> r[|r| - 1] != '/')
  {
    match LastIndexOf(p, '/')
    case None => []
    case Some(i) =>
      var head := p[..i + 1];
      if AllSlashes(head) then head
      else
        var r := TrimSlashes(head);
        assert p[|r|..|head|] == head[|r|..];
        r
  }

  /** The directory the default path lies in is never empty. */
  lemma {:induction false} DefaultPathHasDirectory(format: string, timestamp: string, baseDir: string)
    ensures Dirname(GetOutputPath(None, format, timestamp, baseDir)) != []
  {
    var dir := PathJoin(baseDir, "exports");
    var name := DefaultFileName(timestamp, format);
    assert dir != [];
    assert name[0] == 'f';
    var p := PathJoin(dir, name);
    assert p[|dir|] == '/';
  }

  /** What the command does with `os.makedirs(os.path.dirname(path), exist_ok=True)`, as written. */
  function MakeDirsAsWritten(path: string): (r: Result<string, string>)
    ensures r.Err? <==> '/' !in path
    ensures r.Ok? ==> r.value == Dirname(path)
  {
    if Dirname(path) == [] then Err("[Errno 2] No such file or directory: ''") else Ok(Dirname(path))
  }

  /** `--output export.json`, a bare file name, makes the whole command fail. */
  lemma BareOutputNameFails()
    ensures MakeDirsAsWritten("export.json").Err?
  {
    assert '/' !in "export.json";
  }

  /** The directory to create before writing: none for a bare file name. */
  function OutputDirectory(path: string): (r: Option<string>)
    ensures r.None? <==> '/' !in path
    ensures r.Some? ==> r.value == Dirname(path) && r.value != []
  {
    if Dirname(path) == [] then None else Some(Dirname(path))
  }

  // ---------------------------------------------------------------------------
  // get_filtered_data
  // ---------------------------------------------------------------------------

  function KindTable(db: ExportDb, kind: Kind): seq<Record> {
    match kind
    case Projects => db.projects
    case Applications => db.applications
    case Tasks => db.tasks
    case Artifacts => db.artifacts
    case Decisions => db.decisions
    case Integrations => db.integrations
  }

  predicate LinksTo(l: Link, id: int) {
    l.LinkTo? && l.id == id
  }

  /** `application__project=project`: the application with that id belongs to the project. */
  predicate ApplicationIn(db: ExportDb, appId: int, projectId: int) {
    var app := FindBy(db.applications, RecordPk, appId);
    app.Some? && LinksTo(app.value.project, projectId)
  }

  /** The project filter `get_filtered_data` applies to one kind. */
  predicate InProject(db: ExportDb, kind: Kind, projectId: int, r: Record) {
    match kind
    case Artifacts => r.application.LinkTo? && ApplicationIn(db, r.application.id, projectId)
    case Integrations => r.fromApplication.Some? && ApplicationIn(db, r.fromApplication.value, projectId)
    case _ => LinksTo(r.project, projectId)
  }

  /** The records of one kind: all of them, or the project's own; the projects kind is the project itself. */
  function KindObjects(db: ExportDb, project: Option<Record>, kind: Kind): seq<Record> {
    if project.None? then KindTable(db, kind)
    else if kind == Projects then [project.value]
    else Filter(KindTable(db, kind), (r: Record) => InProject(db, kind, project.value.id, r))
  }

  /** With a project, every kind but projects keeps exactly the records linked to it. */
  lemma {:induction false} KindObjectsScoped(db: ExportDb, project: Record, kind: Kind, r: Record)
    requires kind != Projects
    ensures r in KindObjects(db, Some(project), kind) <==> r in KindTable(db, kind) && InProject(db, kind, project.id, r)
  {
    FilterMembers(KindTable(db, kind), (r: Record) => InProject(db, kind, project.id, r));
  }

  /** Without a project, each exported kind carries its whole table. */
  lemma {:induction false} KindObjectsAll(db: ExportDb, includeTypes: seq<Kind>, i: int)
    requires 0 <= i < |FilteredData(db, None, includeTypes)|
    ensures FilteredData(db, None, includeTypes)[i].1 == KindTable(db, FilteredData(db, None, includeTypes)[i].0)
  {
    EntriesAt(db, None, IncludedKinds(includeTypes), i);
  }

  function IfIncluded(kind: Kind, includeTypes: seq<Kind>): seq<Kind> {
    if kind in includeTypes then [kind] else []
  }

  /** The kinds named by `--include`, in the fixed order of `AllKinds`. */
  function IncludedKinds(includeTypes: seq<Kind>): seq<Kind> {
    IfIncluded(Projects, includeTypes) + IfIncluded(Applications, includeTypes) + IfIncluded(Tasks, includeTypes)
    + IfIncluded(Artifacts, includeTypes) + IfIncluded(Decisions, includeTypes) + IfIncluded(Integrations, includeTypes)
  }

  /** A kind is exported exactly when `--include` names it. */
  lemma {:induction false} IncludedKindsMembers(includeTypes: seq<Kind>, k: Kind)
    ensures k in IncludedKinds(includeTypes) <==> k in includeTypes
  {
    var it := includeTypes;
    IfIncludedMember(Projects, it, k);
    IfIncludedMember(Applications, it, k);
    IfIncludedMember(Tasks, it, k);
    IfIncludedMember(Artifacts, it, k);
    IfIncludedMember(Decisions, it, k);
    IfIncludedMember(Integrations, it, k);
  }

  /** With the default `--include`, every kind is exported, in the fixed order. */
  lemma DefaultIncludesAll()
    ensures IncludedKinds(AllKinds) == AllKinds
  {
    assert IfIncluded(Projects, AllKinds) == [Projects];
    assert IfIncluded(Integrations, AllKinds) == [Integrations];
  }

  lemma {:induction false} IfIncludedMember(kind: Kind, includeTypes: seq<Kind>, k: Kind)
    ensures k in IfIncluded(kind, includeTypes) <==> k == kind && k in includeTypes
  {
  }

  function Kinds<T>(d: seq<(Kind, seq<T>)>): (r: seq<Kind>)
    ensures |r| == |d| && forall i :: 0 <= i < |d| ==> r[i] == d[i].0
  {
    seq(|d|, i requires 0 <= i < |d| => d[i].0)
  }

  /** The entries for a list of kinds, each with its records. */
  function Entries(db: ExportDb, project: Option<Record>, kinds: seq<Kind>): (r: seq<(Kind, seq<Record>)>)
    ensures |r| == |kinds|
  {
    if kinds == [] then []
    else Entries(db, project, kinds[..|kinds| - 1]) + [(kinds[|kinds| - 1], KindObjects(db, project, kinds[|kinds| - 1]))]
  }

  lemma {:induction false} EntriesAppend(db: ExportDb, project: Option<Record>, a: seq<Kind>, b: seq<Kind>)
    ensures Entries(db, project, a + b) == Entries(db, project, a) + Entries(db, project, b)
    decreases |b|
  {
    if b != [] {
      assert (a + b)[..|a + b| - 1] == a + b[..|b| - 1];
      EntriesAppend(db, project, a, b[..|b| - 1]);
    } else {
      assert a + b == a;
    }
  }

  lemma EntriesOne(db: ExportDb, project: Option<Record>, kind: Kind)
    ensures Entries(db, project, [kind]) == [(kind, KindObjects(db, project, kind))]
  {
    assert [kind][..0] == [];
  }

  /** Each entry is a kind from the list, paired with its records. */
  lemma {:induction false} EntriesAt(db: ExportDb, project: Option<Record>, kinds: seq<Kind>, i: int)
    requires 0 <= i < |kinds|
    ensures Entries(db, project, kinds)[i] == (kinds[i], KindObjects(db, project, kinds[i]))
    decreases |kinds|
  {
    if i < |kinds| - 1 {
      EntriesAt(db, project, kinds[..|kinds| - 1], i);
    }
  }

  /** The `data` dict: one entry per included kind, in visiting order. */
  function FilteredData(db: ExportDb, project: Option<Record>, includeTypes: seq<Kind>): seq<(Kind, seq<Record>)> {
    Entries(db, project, IncludedKinds(includeTypes))
  }

  /** The dict has a key for a kind exactly when `--include` names it. */
  lemma {:induction false} FilteredDataKeys(db: ExportDb, project: Option<Record>, includeTypes: seq<Kind>, k: Kind)
    ensures k in Kinds(FilteredData(db, project, includeTypes)) <==> k in includeTypes
  {
    var ks := IncludedKinds(includeTypes);
    var d := FilteredData(db, project, includeTypes);
    IncludedKindsMembers(includeTypes, k);
    forall i | 0 <= i < |ks|
      ensures d[i].0 == ks[i]
    {
      EntriesAt(db, project, ks, i);
    }
    assert Kinds(d) == ks;
  }

  /** `get_filtered_data`: six tests of `include_types`, each adding its kind. */
  method GetFilteredData(db: ExportDb, project: Option<Record>, includeTypes: seq<Kind>)
    returns (data: seq<(Kind, seq<Record>)>)
    ensures data == FilteredData(db, project, includeTypes)
  {
    data := [];
    ghost var visited: seq<Kind> := [];
    data, visited := AddKindData(db, project, includeTypes, Projects, data, visited);
    data, visited := AddKindData(db, project, includeTypes, Applications, data, visited);
    data, visited := AddKindData(db, project, includeTypes, Tasks, data, visited);
    data, visited := AddKindData(db, project, includeTypes, Artifacts, data, visited);
    data, visited := AddKindData(db, project, includeTypes, Decisions, data, visited);
    data, visited := AddKindData(db, project, includeTypes, Integrations, data, visited);
    assert visited == IncludedKinds(includeTypes);
  }

  /** One `if '<kind>' in include_types` step of `get_filtered_data`. */
  method AddKindData(db: ExportDb, project: Option<Record>, includeTypes: seq<Kind>, kind: Kind,
                     data: seq<(Kind, seq<Record>)>, ghost visited: seq<Kind>)
    returns (data': seq<(Kind, seq<Record>)>, ghost visited': seq<Kind>)
    requires data == Entries(db, project, visited)
    ensures visited' == visited + IfIncluded(kind, includeTypes)
    ensures data' == Entries(db, project, visited')
  {
    data' := data;
    if kind in includeTypes {
      data' := data + [(kind, KindObjects(db, project, kind))];
      EntriesOne(db, project, kind);
    }
    EntriesAppend(db, project, visited, IfIncluded(kind, includeTypes));
    visited' := visited + IfIncluded(kind, includeTypes);
  }

  function TotalObjects<T>(d: seq<(Kind, seq<T>)>): nat {
    if d == [] then 0 else TotalObjects(d[..|d| - 1]) + |d[|d| - 1].1|
  }

  // ---------------------------------------------------------------------------
  // export_json
  // ---------------------------------------------------------------------------

  datatype JVal = JNull | JInt(n: int) | JText(s: string)

  /** The keys of a serialized record, which also name the record attributes they are read from. */
  datatype Field =
    | Id | CreatedAt | UpdatedAt | Name | Title | Description | Status
    | ProjectId | ProjectName | ApplicationId | ApplicationName
    | Owner | StartDate | TargetDate | Features | TechStack | Version | RepositoryUrl
    | Priority | DueDate | AssignedTo | ArtifactType | FileSize

  function FieldName(f: Field): string {
    match f
    case Id => "id"
    case CreatedAt => "created_at"
    case UpdatedAt => "updated_at"
    case Name => "name"
    case Title => "title"
    case Description => "description"
    case Status => "status"
    case ProjectId => "project_id"
    case ProjectName => "project_name"
    case ApplicationId => "application_id"
    case ApplicationName => "application_name"
    case Owner => "owner"
    case StartDate => "start_date"
    case TargetDate => "target_date"
    case Features => "features"
    case TechStack => "tech_stack"
    case Version => "version"
    case RepositoryUrl => "repository_url"
    case Priority => "priority"
    case DueDate => "due_date"
    case AssignedTo => "assigned_to"
    case ArtifactType => "artifact_type"
    case FileSize => "file_size"
  }

  /** The text attributes every record may have and that `export_json` copies when present. */
  const SharedFields: set<Field> := {Name, Title, Description, Status}

  /** The extra keys `export_json` writes for each kind. */
  function KindFields(kind: Kind): set<Field> {
    match kind
    case Projects => {Owner, StartDate, TargetDate}
    case Applications => {Features, TechStack, Version, RepositoryUrl}
    case Tasks => {Priority, DueDate, AssignedTo}
    case Artifacts => {ArtifactType, Version, FileSize}
    case _ => {}
  }

  function AttrOrNull(r: Record, key: Field): JVal {
    if key in r.attrs then JText(r.attrs[key]) else JNull
  }

  function LinkId(l: Link): JVal {
    if l.LinkTo? then JInt(l.id) else JNull
  }

  function LinkName(l: Link): JVal {
    if l.LinkTo? then JText(l.name) else JNull
  }

  function RelationKeys(r: Record): set<Field> {
    (if r.project.NoAttribute? then {} else {ProjectId, ProjectName})
    + (if r.application.NoAttribute? then {} else {ApplicationId, ApplicationName})
  }

  /** The id and time stamps every serialized record carries, and the shared text fields it has. */
  function BaseData(r: Record): map<Field, JVal> {
    var base := map[Id := JInt(r.id), CreatedAt := AttrOrNull(r, CreatedAt), UpdatedAt := AttrOrNull(r, UpdatedAt)];
    base + map k | k in SharedFields && k in r.attrs :: JText(r.attrs[k])
  }

  /** The ids and names of the links a record has (null for a null link). */
  function WithLinks(m: map<Field, JVal>, r: Record): map<Field, JVal> {
    var withProject :=
      if r.project.NoAttribute? then m
      else m[ProjectId := LinkId(r.project)][ProjectName := LinkName(r.project)];
    if r.application.NoAttribute? then withProject
    else withProject[ApplicationId := LinkId(r.application)][ApplicationName := LinkName(r.application)]
  }

  /** The kind's own keys, each the attribute of that name or null. */
  function KindData(kind: Kind, r: Record): map<Field, JVal> {
    map k | k in KindFields(kind) :: AttrOrNull(r, k)
  }

  /**
   * The `obj_data` dict of one record: id and time stamps always, the shared text fields it
   * has, the ids and names of the links it has (null for a null link), then the kind's own keys.
   */
  function ObjData(kind: Kind, r: Record): map<Field, JVal> {
    WithLinks(BaseData(r), r) + KindData(kind, r)
  }

  /** The keys of one serialized record. */
  lemma {:induction false} ObjDataKeys(kind: Kind, r: Record)
    ensures ObjData(kind, r).Keys == {Id, CreatedAt, UpdatedAt} + (SharedFields * r.attrs.Keys) + RelationKeys(r) + KindFields(kind)
  {
    var shared := map k | k in SharedFields && k in r.attrs :: JText(r.attrs[k]);
    assert shared.Keys == SharedFields * r.attrs.Keys;
    assert BaseData(r).Keys == {Id, CreatedAt, UpdatedAt} + (SharedFields * r.attrs.Keys);
    assert WithLinks(BaseData(r), r).Keys == BaseData(r).Keys + RelationKeys(r);
    assert KindData(kind, r).Keys == KindFields(kind);
  }

  /** No kind writes the id or a link key itself. */
  lemma {:induction false} KindFieldsLeaveLinks(kind: Kind)
    ensures Id !in KindFields(kind) && ProjectId !in KindFields(kind) && ProjectName !in KindFields(kind)
    ensures ApplicationId !in KindFields(kind) && ApplicationName !in KindFields(kind)
  {
  }

  /** The id of a serialized record, and its links' ids and names when it has those attributes. */
  lemma {:induction false} ObjDataLinks(kind: Kind, r: Record)
    ensures var m := ObjData(kind, r);
      && Id in m && m[Id] == JInt(r.id)
      && (!r.project.NoAttribute? ==>
            ProjectId in m && ProjectName in m && m[ProjectId] == LinkId(r.project) && m[ProjectName] == LinkName(r.project))
      && (!r.application.NoAttribute? ==>
            ApplicationId in m && ApplicationName in m &&
            m[ApplicationId] == LinkId(r.application) && m[ApplicationName] == LinkName(r.application))
  {
    KindFieldsLeaveLinks(kind);
    assert Id in BaseData(r) && BaseData(r)[Id] == JInt(r.id);
    WithLinksKeeps(BaseData(r), r, Id);
    WithLinksSets(BaseData(r), r);
  }

  lemma {:induction false} WithLinksSets(m: map<Field, JVal>, r: Record)
    ensures var w := WithLinks(m, r);
      && (!r.project.NoAttribute? ==>
            ProjectId in w && ProjectName in w && w[ProjectId] == LinkId(r.project) && w[ProjectName] == LinkName(r.project))
      && (!r.application.NoAttribute? ==>
            ApplicationId in w && ApplicationName in w &&
            w[ApplicationId] == LinkId(r.application) && w[ApplicationName] == LinkName(r.application))
  {
  }

  /** A shared text attribute is copied as it is, unless the kind writes that key itself. */
  lemma {:induction false} ObjDataShared(kind: Kind, r: Record, k: Field)
    requires k in SharedFields && k in r.attrs && k !in KindFields(kind)
    ensures k in ObjData(kind, r) && ObjData(kind, r)[k] == JText(r.attrs[k])
  {
    BaseDataShared(r, k);
    WithLinksKeeps(BaseData(r), r, k);
    assert k !in KindData(kind, r);
  }

  lemma {:induction false} BaseDataShared(r: Record, k: Field)
    requires k in SharedFields && k in r.attrs
    ensures k in BaseData(r) && BaseData(r)[k] == JText(r.attrs[k])
  {
    var shared := map k' | k' in SharedFields && k' in r.attrs :: JText(r.attrs[k']);
    assert k in shared && shared[k] == JText(r.attrs[k]);
  }

  lemma {:induction false} WithLinksKeeps(m: map<Field, JVal>, r: Record, k: Field)
    requires k in m && k != ProjectId && k != ProjectName && k != ApplicationId && k != ApplicationName
    ensures k in WithLinks(m, r) && WithLinks(m, r)[k] == m[k]
  {
  }

  /** A kind's own keys carry the attribute of that name, or null. */
  lemma {:induction false} ObjDataKindFields(kind: Kind, r: Record, k: Field)
    requires k in KindFields(kind)
    ensures k in ObjData(kind, r) && ObjData(kind, r)[k] == AttrOrNull(r, k)
  {
  }

  function ObjDataList(kind: Kind, objs: seq<Record>): (r: seq<map<Field, JVal>>)
    ensures |r| == |objs|
  {
    if objs == [] then [] else ObjDataList(kind, objs[..|objs| - 1]) + [ObjData(kind, objs[|objs| - 1])]
  }

  lemma {:induction false} ObjDataListAt(kind: Kind, objs: seq<Record>, i: int)
    requires 0 <= i < |objs|
    ensures ObjDataList(kind, objs)[i] == ObjData(kind, objs[i])
    decreases |objs|
  {
    if i < |objs| - 1 {
      ObjDataListAt(kind, objs[..|objs| - 1], i);
    }
  }

  /** `export_data['data']`: the serialized records of every kind that has any. */
  function SerializeEntries(d: seq<(Kind, seq<Record>)>): seq<(Kind, seq<map<Field, JVal>>)> {
    if d == [] then []
    else
      var rest := SerializeEntries(d[..|d| - 1]);
      var (kind, objs) := d[|d| - 1];
      if objs == [] then rest else rest + [(kind, ObjDataList(kind, objs))]
  }

  /** Dropping the empty kinds does not change the record count. */
  lemma {:induction false} SerializeTotal(d: seq<(Kind, seq<Record>)>)
    ensures TotalObjects(SerializeEntries(d)) == TotalObjects(d)
  {
    if d != [] {
      SerializeTotal(d[..|d| - 1]);
      var rest := SerializeEntries(d[..|d| - 1]);
      var (kind, objs) := d[|d| - 1];
      if objs != [] {
        var out := rest + [(kind, ObjDataList(kind, objs))];
        assert out[..|out| - 1] == rest;
      }
    }
  }

  /** Some entry of kind `k` has records. */
  predicate HasRecords(d: seq<(Kind, seq<Record>)>, k: Kind) {
    d != [] && ((d[|d| - 1].0 == k && d[|d| - 1].1 != []) || HasRecords(d[..|d| - 1], k))
  }

  /** A kind appears in the output exactly when it has records. */
  lemma {:induction false} SerializeKinds(d: seq<(Kind, seq<Record>)>, k: Kind)
    ensures k in Kinds(SerializeEntries(d)) <==> HasRecords(d, k)
  {
    if d != [] {
      var init := d[..|d| - 1];
      SerializeKinds(init, k);
      var rest := SerializeEntries(init);
      var (kind, objs) := d[|d| - 1];
      if objs != [] {
        var out := rest + [(kind, ObjDataList(kind, objs))];
        assert Kinds(out) == Kinds(rest) + [kind];
      }
    }
  }

  lemma {:induction false} EntriesHasRecords(db: ExportDb, project: Option<Record>, kinds: seq<Kind>, k: Kind)
    ensures HasRecords(Entries(db, project, kinds), k) <==> k in kinds && KindObjects(db, project, k) != []
  {
    if kinds != [] {
      var init := kinds[..|kinds| - 1];
      EntriesHasRecords(db, project, init, k);
      var e := Entries(db, project, kinds);
      assert e[..|e| - 1] == Entries(db, project, init);
      assert kinds == init + [kinds[|kinds| - 1]];
    }
  }

  /** The JSON `data` block holds a kind exactly when it is included and has records. */
  lemma {:induction false} JsonKinds(db: ExportDb, project: Option<Record>, includeTypes: seq<Kind>, k: Kind)
    ensures k in Kinds(SerializeEntries(FilteredData(db, project, includeTypes))) <==>
      k in includeTypes && KindObjects(db, project, k) != []
  {
    SerializeKinds(FilteredData(db, project, includeTypes), k);
    EntriesHasRecords(db, project, IncludedKinds(includeTypes), k);
    IncludedKindsMembers(includeTypes, k);
  }

  datatype ExportInfo = ExportInfo(timestamp: string, format: string, project: string, includeTypes: seq<Kind>)

  datatype JsonDocument = JsonDocument(info: ExportInfo, data: seq<(Kind, seq<map<Field, JVal>>)>)

  function ProjectLabel(project: Option<Record>, everything: string): string {
    if project.Some? then NameOf(project.value) else everything
  }

  lemma ObjDataListStep(kind: Kind, objs: seq<Record>, j: int)
    requires 0 <= j < |objs|
    ensures ObjDataList(kind, objs[..j + 1]) == ObjDataList(kind, objs[..j]) + [ObjData(kind, objs[j])]
  {
    assert objs[..j + 1][..j] == objs[..j];
  }

  /** The inner loop of `export_json`: `obj_data` for each record of one kind. */
  method SerializeObjects(kind: Kind, objects: seq<Record>) returns (serialized: seq<map<Field, JVal>>)
    ensures serialized == ObjDataList(kind, objects)
  {
    serialized := [];
    var j := 0;
    while j < |objects|
      invariant 0 <= j <= |objects|
      invariant serialized == ObjDataList(kind, objects[..j])
    {
      ObjDataListStep(kind, objects, j);
      serialized := serialized + [ObjData(kind, objects[j])];
      j := j + 1;
    }
    assert objects[..j] == objects;
  }

  /** `export_json`: the document written and the record count it reports. */
  method ExportJson(db: ExportDb, project: Option<Record>, includeTypes: seq<Kind>, now: string)
    returns (doc: JsonDocument, exported: nat)
    ensures doc.info == ExportInfo(now, "json", ProjectLabel(project, "all"), includeTypes)
    ensures doc.data == SerializeEntries(FilteredData(db, project, includeTypes))
    ensures exported == TotalObjects(FilteredData(db, project, includeTypes))
  {
    var data := GetFilteredData(db, project, includeTypes);
    var out: seq<(Kind, seq<map<Field, JVal>>)> := [];
    var i := 0;
    while i < |data|
      invariant 0 <= i <= |data|
      invariant out == SerializeEntries(data[..i])
    {
      assert data[..i + 1][..i] == data[..i];
      var kind: Kind, objects: seq<Record> := data[i].0, data[i].1;
      assert data[..i + 1][|data[..i + 1]| - 1] == (kind, objects);
      if objects != [] {
        var serialized := SerializeObjects(kind, objects);
        out := out + [(kind, serialized)];
      }
      i := i + 1;
    }
    assert data[..i] == data;
    doc := JsonDocument(ExportInfo(now, "json", ProjectLabel(project, "all"), includeTypes), out);
    SerializeTotal(data);
    exported := TotalObjects(out);
  }

  // ---------------------------------------------------------------------------
  // export_csv
  // ---------------------------------------------------------------------------

  /** A CSV file: its path, its header row (none when nothing is written) and the ids of its rows. */
  datatype CsvFile = CsvFile(path: string, header: seq<string>, rowIds: seq<int>)

  predicate HasTableLayout(kind: Kind) {
    kind == Projects || kind == Applications || kind == Tasks
  }

  function CsvHeader(kind: Kind): seq<string> {
    match kind
    case Projects => ["id", "name", "description", "status", "owner", "start_date", "target_date", "created_at", "updated_at"]
    case Applications => ["id", "name", "description", "status", "project", "version", "repository_url", "created_at", "updated_at"]
    case Tasks => ["id", "title", "description", "status", "priority", "project", "application", "due_date", "created_at", "updated_at"]
    case _ => []
  }

  function Ids(objs: seq<Record>): (r: seq<int>)
    ensures |r| == |objs| && forall i :: 0 <= i < |r| ==> r[i] == objs[i].id
  {
    seq(|objs|, i requires 0 <= i < |objs| => objs[i].id)
  }

  /**
   * The file `export_csv` writes for one kind: `<base>_<kind>.csv`, with a header and one
   * row per record for projects, applications and tasks, and empty for the other kinds.
   */
  function CsvFileOf(base: string, kind: Kind, objs: seq<Record>): (f: CsvFile)
    ensures f.path == base + "_" + KindName(kind) + ".csv"
    ensures HasTableLayout(kind) ==> f.header != [] && f.rowIds == Ids(objs)
    ensures !HasTableLayout(kind) ==> f.header == [] && f.rowIds == []
  {
    CsvFile(base + "_" + KindName(kind) + ".csv", CsvHeader(kind), if HasTableLayout(kind) then Ids(objs) else [])
  }

  function CsvFiles(base: string, d: seq<(Kind, seq<Record>)>): seq<CsvFile> {
    if d == [] then []
    else
      var rest := CsvFiles(base, d[..|d| - 1]);
      var (kind, objs) := d[|d| - 1];
      if objs == [] then rest else rest + [CsvFileOf(base, kind, objs)]
  }

  /** Every file written belongs to a kind that has records, and is named after it. */
  lemma {:induction false} CsvFilesFromKinds(base: string, d: seq<(Kind, seq<Record>)>, f: CsvFile)
    requires f in CsvFiles(base, d)
    ensures exists i :: 0 <= i < |d| && d[i].1 != [] && f == CsvFileOf(base, d[i].0, d[i].1)
  {
    var init := d[..|d| - 1];
    var (kind, objs) := d[|d| - 1];
    if objs != [] && f == CsvFileOf(base, kind, objs) {
      assert d[|d| - 1].1 != [];
    } else {
      CsvFilesFromKinds(base, init, f);
      var i :| 0 <= i < |init| && init[i].1 != [] && f == CsvFileOf(base, init[i].0, init[i].1);
      assert d[i] == init[i];
    }
  }

  /** Each kind that has records gets its file. */
  lemma {:induction false} CsvFilesCoverKinds(base: string, d: seq<(Kind, seq<Record>)>, i: int)
    requires 0 <= i < |d| && d[i].1 != []
    ensures CsvFileOf(base, d[i].0, d[i].1) in CsvFiles(base, d)
  {
    if i < |d| - 1 {
      CsvFilesCoverKinds(base, d[..|d| - 1], i);
    }
  }

  /** With an output path `<stem>.<suffix>`, the files are named `<stem>_<kind>.csv`. */
  lemma CsvBaseOfDotted(stem: string, suffix: string)
    requires '.' !in suffix
    ensures RsplitHead(stem + "." + suffix, '.') == stem
  {
    var s := stem + "." + suffix;
    assert s[|stem|] == '.';
    assert s[..|stem|] == stem;
  }

  /** One more kind adds its file when it has records, and nothing otherwise. */
  lemma CsvFilesStep(base: string, d: seq<(Kind, seq<Record>)>, i: int)
    requires 0 <= i < |d|
    ensures CsvFiles(base, d[..i + 1])
      == CsvFiles(base, d[..i]) + (if d[i].1 == [] then [] else [CsvFileOf(base, d[i].0, d[i].1)])
  {
    assert d[..i + 1][..i] == d[..i];
  }

  /** The `with open(csv_path, 'w')` block of `export_csv` for one kind. */
  method WriteCsv(basePath: string, kind: Kind, objects: seq<Record>) returns (f: CsvFile)
    ensures f == CsvFileOf(basePath, kind, objects)
  {
    var header: seq<string> := [];
    var rows: seq<int> := [];
    if HasTableLayout(kind) {
      header := CsvHeader(kind);
      var j := 0;
      while j < |objects|
        invariant 0 <= j <= |objects|
        invariant rows == Ids(objects[..j])
      {
        rows := rows + [objects[j].id];
        j := j + 1;
      }
      assert objects[..j] == objects;
    }
    f := CsvFile(basePath + "_" + KindName(kind) + ".csv", header, rows);
  }

  /** `export_csv`: one file per kind that has records. */
  method ExportCsv(db: ExportDb, project: Option<Record>, includeTypes: seq<Kind>, outputPath: string)
    returns (files: seq<CsvFile>)
    ensures files == CsvFiles(RsplitHead(outputPath, '.'), FilteredData(db, project, includeTypes))
  {
    var data := GetFilteredData(db, project, includeTypes);
    var basePath := RsplitHead(outputPath, '.');
    files := [];
    var i := 0;
    while i < |data|
      invariant 0 <= i <= |data|
      invariant files == CsvFiles(basePath, data[..i])
    {
      CsvFilesStep(basePath, data, i);
      var kind: Kind, objects: seq<Record> := data[i].0, data[i].1;
      if objects != [] {
        var f := WriteCsv(basePath, kind, objects);
        files := files + [f];
      }
      i := i + 1;
    }
    assert data[..i] == data;
  }

  // ---------------------------------------------------------------------------
  // export_excel
  // ---------------------------------------------------------------------------

  function UpperChar(c: char): char {
    if 'a' <= c <= 'z' then (c as int - 32) as char else c
  }

  /** `str.capitalize` on ASCII text. */
  function Capitalize(s: string): (r: string)
    ensures |r| == |s|
    ensures s != [] ==> r[0] == UpperChar(s[0])
    ensures forall i :: 1 <= i < |s| ==> r[i] == LowerChar(s[i])
  {
    if s == [] then [] else [UpperChar(s[0])] + Lower(s[1..])
  }

  /** A worksheet row, recorded by the kind and id of the record it was built from. */
  datatype SheetRow = SheetRow(kind: Kind, id: int)

  datatype Sheet = Sheet(kind: Kind, title: string, rows: seq<SheetRow>)

  function FrameOf(kind: Kind, objs: seq<Record>): (r: seq<SheetRow>)
    ensures |r| == |objs| && forall i :: 0 <= i < |r| ==> r[i] == SheetRow(kind, objs[i].id)
  {
    seq(|objs|, i requires 0 <= i < |objs| => SheetRow(kind, objs[i].id))
  }

  /**
   * The worksheets as `export_excel` is written: `df_data` is assigned only for projects,
   * applications and tasks and never reset, so another kind's sheet gets the rows of the
   * last such kind before it, and fails when there was none.
   */
  function SheetsAsWritten(d: seq<(Kind, seq<Record>)>, dfData: Option<seq<SheetRow>>): Result<seq<Sheet>, string> {
    if d == [] then Ok([])
    else
      var (kind, objs) := d[0];
      if objs == [] then SheetsAsWritten(d[1..], dfData)
      else
        var df := if HasTableLayout(kind) then Some(FrameOf(kind, objs)) else dfData;
        match df
        case None => Err("cannot access local variable 'df_data'")
        case Some(rows) =>
          match SheetsAsWritten(d[1..], df)
          case Err(e) => Err(e)
          case Ok(rest) => Ok([Sheet(kind, Capitalize(KindName(kind)), rows)] + rest)
  }

  /** One project and one artifact: the Artifacts sheet holds the project's row. */
  lemma SheetsCarryOver(p: Record, a: Record)
    ensures SheetsAsWritten([(Projects, [p]), (Artifacts, [a])], None)
      == Ok([Sheet(Projects, Capitalize(KindName(Projects)), [SheetRow(Projects, p.id)]),
             Sheet(Artifacts, Capitalize(KindName(Artifacts)), [SheetRow(Projects, p.id)])])
  {
    var rows := [SheetRow(Projects, p.id)];
    var tail: seq<(Kind, seq<Record>)> := [(Artifacts, [a])];
    assert tail[1..] == [];
    assert SheetsAsWritten(tail[1..], Some(rows)) == Ok([]);
    assert !HasTableLayout(Artifacts);
    var r := SheetsAsWritten(tail, Some(rows));
    assert tail[0] == (Artifacts, [a]);
    assert r.Ok?;
    assert r.value == [Sheet(Artifacts, Capitalize(KindName(Artifacts)), rows)];
    var d: seq<(Kind, seq<Record>)> := [(Projects, [p]), (Artifacts, [a])];
    assert d[0] == (Projects, [p]) && d[1..] == tail;
    assert FrameOf(Projects, [p]) == rows;
    var whole := SheetsAsWritten(d, None);
    assert whole.Ok?;
    assert whole.value == [Sheet(Projects, Capitalize(KindName(Projects)), rows)] + r.value;
    assert whole.value == [Sheet(Projects, Capitalize(KindName(Projects)), rows), Sheet(Artifacts, Capitalize(KindName(Artifacts)), rows)];
    assert whole == Ok([Sheet(Projects, Capitalize(KindName(Projects)), rows), Sheet(Artifacts, Capitalize(KindName(Artifacts)), rows)]);
  }

  /** Artifacts alone: the export fails. */
  lemma SheetsUnbound(a: Record)
    ensures SheetsAsWritten([(Artifacts, [a])], None).Err?
  {
  }

  /** The worksheets with `df_data` reset for every kind: a kind without a layout gets an empty sheet. */
  function Sheets(d: seq<(Kind, seq<Record>)>): seq<Sheet> {
    if d == [] then []
    else
      var rest := Sheets(d[..|d| - 1]);
      var (kind, objs) := d[|d| - 1];
      if objs == [] then rest
      else rest + [Sheet(kind, Capitalize(KindName(kind)), if HasTableLayout(kind) then FrameOf(kind, objs) else [])]
  }

  /** Every sheet belongs to a kind with records, and its rows come from records of that kind. */
  lemma {:induction false} SheetsOwnRows(d: seq<(Kind, seq<Record>)>, s: Sheet)
    requires s in Sheets(d)
    ensures exists i :: 0 <= i < |d| && d[i].1 != [] && s.kind == d[i].0
    ensures forall r :: r in s.rows ==> r.kind == s.kind
    ensures !HasTableLayout(s.kind) ==> s.rows == []
  {
    var init := d[..|d| - 1];
    var (kind, objs) := d[|d| - 1];
    if objs != [] && s == Sheet(kind, Capitalize(KindName(kind)), if HasTableLayout(kind) then FrameOf(kind, objs) else []) {
      assert d[|d| - 1].1 != [];
    } else {
      SheetsOwnRows(init, s);
      var i :| 0 <= i < |init| && init[i].1 != [] && s.kind == init[i].0;
      assert d[i] == init[i];
    }
  }

  /** Every kind with records gets its sheet, holding that kind's rows. */
  lemma {:induction false} SheetsCoverKinds(d: seq<(Kind, seq<Record>)>, i: int)
    requires 0 <= i < |d| && d[i].1 != []
    ensures Sheet(d[i].0, Capitalize(KindName(d[i].0)), if HasTableLayout(d[i].0) then FrameOf(d[i].0, d[i].1) else [])
      in Sheets(d)
  {
    if i < |d| - 1 {
      var init := d[..|d| - 1];
      assert init[i] == d[i];
      SheetsCoverKinds(init, i);
    }
  }

  /** The summary sheet: the project label and one count row per included kind, empty or not. */
  datatype Summary = Summary(exportDate: string, project: string, counts: seq<(string, nat)>)

  function SummaryCounts(d: seq<(Kind, seq<Record>)>): (r: seq<(string, nat)>)
    ensures |r| == |d| && forall i :: 0 <= i < |d| ==> r[i] == (Capitalize(KindName(d[i].0)), |d[i].1|)
  {
    seq(|d|, i requires 0 <= i < |d| => (Capitalize(KindName(d[i].0)), |d[i].1|))
  }

  datatype Workbook = Workbook(summary: Summary, sheets: seq<Sheet>)

  /** The worksheet loop of `export_excel`. */
  method AddSheets(data: seq<(Kind, seq<Record>)>) returns (sheets: seq<Sheet>)
    ensures sheets == Sheets(data)
  {
    sheets := [];
    var i := 0;
    while i < |data|
      invariant 0 <= i <= |data|
      invariant sheets == Sheets(data[..i])
    {
      assert data[..i + 1][..i] == data[..i];
      var kind: Kind, objects: seq<Record> := data[i].0, data[i].1;
      if objects != [] {
        var dfData: seq<SheetRow> := [];
        if HasTableLayout(kind) {
          var j := 0;
          while j < |objects|
            invariant 0 <= j <= |objects|
            invariant dfData == FrameOf(kind, objects[..j])
          {
            assert FrameOf(kind, objects[..j + 1]) == FrameOf(kind, objects[..j]) + [SheetRow(kind, objects[j].id)];
            dfData := dfData + [SheetRow(kind, objects[j].id)];
            j := j + 1;
          }
          assert objects[..j] == objects;
        }
        sheets := sheets + [Sheet(kind, Capitalize(KindName(kind)), dfData)];
      }
      assert data[..i + 1][|data[..i + 1]| - 1] == (kind, objects);
      i := i + 1;
    }
    assert data[..i] == data;
  }

  /** The summary loop of `export_excel`: one (type, count) row per exported kind. */
  method AddSummaryCounts(data: seq<(Kind, seq<Record>)>) returns (counts: seq<(string, nat)>)
    ensures counts == SummaryCounts(data)
  {
    counts := [];
    var i := 0;
    while i < |data|
      invariant 0 <= i <= |data|
      invariant counts == SummaryCounts(data[..i])
    {
      assert SummaryCounts(data[..i + 1]) == SummaryCounts(data[..i]) + [(Capitalize(KindName(data[i].0)), |data[i].1|)];
      counts := counts + [(Capitalize(KindName(data[i].0)), |data[i].1|)];
      i := i + 1;
    }
    assert data[..i] == data;
  }

  /**
   * `export_excel`: the workbook, and the sheet and record counts of its closing message.
   * The message counts the included kinds as sheets.
   */
  method ExportExcel(db: ExportDb, project: Option<Record>, includeTypes: seq<Kind>, now: string)
    returns (wb: Workbook, sheetsReported: nat, totalRecords: nat)
    ensures wb.sheets == Sheets(FilteredData(db, project, includeTypes))
    ensures wb.summary == Summary(now, ProjectLabel(project, "All Projects"), SummaryCounts(FilteredData(db, project, includeTypes)))
    ensures sheetsReported == |IncludedKinds(includeTypes)|
    ensures totalRecords == TotalObjects(FilteredData(db, project, includeTypes))
  {
    var data := GetFilteredData(db, project, includeTypes);
    var sheets := AddSheets(data);
    var counts := AddSummaryCounts(data);
    wb := Workbook(Summary(now, ProjectLabel(project, "All Projects"), counts), sheets);
    sheetsReported := |data|;
    totalRecords := TotalObjects(data);
  }

  // ---------------------------------------------------------------------------
  // handle
  // ---------------------------------------------------------------------------

  datatype Output =
    | JsonOutput(doc: JsonDocument, exported: nat)
    | CsvOutput(files: seq<CsvFile>)
    | ExcelOutput(workbook: Workbook, sheetsReported: nat, totalRecords: nat)
    | NoOutput

  datatype ExportRun = ExportRun(path: string, directory: Option<string>, output: Output)

  /**
   * `handle`: choose the project, the path and its directory, then dispatch on the format.
   * Any failure is reported as `Error exporting data: <reason>`.
   */
  method Handle(db: ExportDb, format: string, projectOption: Option<int>, output: Option<string>,
                includeTypes: seq<Kind>, now: string, timestamp: string, baseDir: string)
    returns (r: Result<ExportRun, string>)
    ensures r.Err? <==> SelectProject(db, projectOption).Err?
    ensures r.Err? ==> r.error == "Error exporting data: " + SelectProject(db, projectOption).error
    ensures r.Ok? ==>
      var project := SelectProject(db, projectOption).value;
      var path := GetOutputPath(output, format, timestamp, baseDir);
      var data := FilteredData(db, project, includeTypes);
      && r.value.path == path
      && r.value.directory == OutputDirectory(path)
      && (format == "json" ==>
            r.value.output == JsonOutput(JsonDocument(ExportInfo(now, "json", ProjectLabel(project, "all"), includeTypes),
                                                      SerializeEntries(data)), TotalObjects(data)))
      && (format == "csv" ==> r.value.output == CsvOutput(CsvFiles(RsplitHead(path, '.'), data)))
      && (format == "excel" ==>
            r.value.output == ExcelOutput(Workbook(Summary(now, ProjectLabel(project, "All Projects"), SummaryCounts(data)),
                                                   Sheets(data)), |IncludedKinds(includeTypes)|, TotalObjects(data)))
      && (format !in ["json", "csv", "excel"] ==> r.value.output == NoOutput)
  {
    var selected := SelectProject(db, projectOption);
    if selected.Err? {
      return Err("Error exporting data: " + selected.error);
    }
    var project := selected.value;
    var path := GetOutputPath(output, format, timestamp, baseDir);
    var directory := OutputDirectory(path);
    var out := NoOutput;
    if format == "json" {
      var doc, exported := ExportJson(db, project, includeTypes, now);
      out := JsonOutput(doc, exported);
    } else if format == "csv" {
      var files := ExportCsv(db, project, includeTypes, path);
      out := CsvOutput(files);
    } else if format == "excel" {
      var wb, sheetsReported, totalRecords := ExportExcel(db, project, includeTypes, now);
      out := ExcelOutput(wb, sheetsReported, totalRecords);
    }
    r := Ok(ExportRun(path, directory, out));
  }
}
