/**
 * The validators and normalisers of tracker/forms.py. Every `clean` is a function from
 * the form's cleaned field values (an absent value is `None`) to the errors it raises
 * or the normalised value it returns; the two `save` methods that rewrite a field of the
 * instance before saving it are methods of small instance classes.
 */
module Forms {
  import opened Wrappers
  import opened Text
  import opened Models

  /** A Django ValidationError: tied to one field, or to the form as a whole. */
  datatype FormError = FieldError(field: string, message: string) | NonFieldError(message: string)

  // ---------------------------------------------------------------------------
  // ProjectForm
  // ---------------------------------------------------------------------------

  const TargetNotAfterStart := "Target date must be after the start date."

  /** `ProjectForm.clean`: the target date must come strictly after the start date. */
  function ProjectFormClean(startDate: Option<Date>, targetDate: Option<Date>): (err: Option<FormError>)
    ensures err.Some? <==> startDate.Some? && targetDate.Some? && targetDate.value <= startDate.value
    ensures err.Some? ==> err.value == NonFieldError(TargetNotAfterStart)
  {
    if startDate.Some? && targetDate.Some? && targetDate.value <= startDate.value then
      Some(NonFieldError(TargetNotAfterStart))
    else None
  }

  // ---------------------------------------------------------------------------
  // ApplicationForm: features as one line each
  // ---------------------------------------------------------------------------

  /** A feature as the form stores it: non-empty, stripped, on one line. */
  predicate IsCleanFeature(f: string) {
    f != [] && IsStripped(f) && '\n' !in f
  }

  predicate AllCleanFeatures(fs: seq<string>) {
    forall i :: 0 <= i < |fs| ==> IsCleanFeature(fs[i])
  }

  /** `[f.strip() for f in lines if f.strip()]`. */
  function StripNonBlank(lines: seq<string>): (r: seq<string>)
    ensures |r| <= |lines|
    ensures forall i :: 0 <= i < |r| ==> r[i] != [] && IsStripped(r[i])
  {
    if lines == [] then []
    else
      var f := Strip(lines[0]);
      if f != [] then [f] + StripNonBlank(lines[1..]) else StripNonBlank(lines[1..])
  }

  /** A character missing from a line is missing from the line stripped. */
  lemma {:induction false} StripWithout(s: string, c: char)
    requires c !in s
    ensures c !in Strip(s)
  {
    var f := Strip(s);
    var k := StripStart(s);
    forall j | 0 <= j < |f| ensures f[j] != c {
      assert f[j] == s[k + j];
    }
  }

  /** No line of `lines` holds `c`. */
  predicate NoneHolds(lines: seq<string>, c: char) {
    forall i :: 0 <= i < |lines| ==> c !in lines[i]
  }

  lemma {:induction false} NoneHoldsSplit(lines: seq<string>, c: char)
    requires lines != [] && NoneHolds(lines, c)
    ensures c !in lines[0] && NoneHolds(lines[1..], c)
  {
    assert forall i :: 0 <= i < |lines| - 1 ==> lines[1..][i] == lines[i + 1];
  }

  lemma {:induction false} NoneHoldsCons(f: string, rest: seq<string>, c: char)
    requires c !in f && NoneHolds(rest, c)
    ensures NoneHolds([f] + rest, c)
  {
    forall i | 0 <= i < |[f] + rest| ensures c !in ([f] + rest)[i] {
      if i > 0 {
        assert ([f] + rest)[i] == rest[i - 1];
      }
    }
  }

  /** A character missing from a line is missing from every stripped line of it. */
  lemma {:induction false} StripNonBlankWithout(lines: seq<string>, c: char)
    requires NoneHolds(lines, c)
    ensures NoneHolds(StripNonBlank(lines), c)
  {
    if lines != [] {
      NoneHoldsSplit(lines, c);
      StripNonBlankWithout(lines[1..], c);
      StripWithout(lines[0], c);
      if Strip(lines[0]) != [] {
        NoneHoldsCons(Strip(lines[0]), StripNonBlank(lines[1..]), c);
      }
    }
  }

  /**
   * `ApplicationForm.clean_features_text`: the stripped, non-blank lines of the text, in
   * order; an empty text gives no features.
   */
  function CleanFeaturesText(text: string): (r: seq<string>)
    ensures text == [] ==> r == []
    ensures AllCleanFeatures(r)
  {
    if text == [] then []
    else
      var lines := Split(text, '\n');
      StripNonBlankWithout(lines, '\n');
      StripNonBlank(lines)
  }

  lemma {:induction false} StripNonBlankClean(fs: seq<string>)
    requires AllCleanFeatures(fs)
    ensures StripNonBlank(fs) == fs
  {
    if fs != [] {
      StripStripped(fs[0]);
      StripNonBlankClean(fs[1..]);
      assert [fs[0]] + fs[1..] == fs;
    }
  }

  /** One line: a blank one is dropped, another is kept stripped. */
  lemma {:induction false} StripNonBlankOne(line: string)
    ensures StripNonBlank([line]) == if Strip(line) == [] then [] else [Strip(line)]
  {
    assert [line][1..] == [];
  }

  /** The lines are cleaned one after another, keeping their order. */
  lemma {:induction false} StripNonBlankAppend(a: seq<string>, b: seq<string>)
    ensures StripNonBlank(a + b) == StripNonBlank(a) + StripNonBlank(b)
  {
    if a == [] {
      assert a + b == b;
    } else {
      assert (a + b)[1..] == a[1..] + b;
      StripNonBlankAppend(a[1..], b);
    }
  }

  /** An empty text is one empty line, so cleaning the text is cleaning its lines. */
  lemma {:induction false} CleanFeaturesLines(text: string)
    ensures CleanFeaturesText(text) == StripNonBlank(Split(text, '\n'))
  {
    if text == [] {
      assert Split(text, '\n') == [[]];
      StripEmpty([]);
      StripNonBlankOne([]);
    }
  }

  /** A single line gives its stripped text as the one feature, or nothing when it is blank. */
  lemma {:induction false} CleanFeaturesLine(line: string)
    requires '\n' !in line
    ensures CleanFeaturesText(line) == if Strip(line) == [] then [] else [Strip(line)]
  {
    CleanFeaturesLines(line);
    SplitWithout(line, '\n');
    StripNonBlankOne(line);
  }

  /** The features of a text are those of its first line followed by those of the rest. */
  lemma {:induction false} CleanFeaturesCons(line: string, rest: string)
    requires '\n' !in line
    ensures CleanFeaturesText(line + ['\n'] + rest) == CleanFeaturesText(line) + CleanFeaturesText(rest)
  {
    CleanFeaturesLines(line + ['\n'] + rest);
    SplitAt(line, rest, '\n');
    StripNonBlankAppend([line], Split(rest, '\n'));
    CleanFeaturesLines(rest);
    CleanFeaturesLine(line);
    StripNonBlankOne(line);
  }

  lemma JoinNonEmpty(fs: seq<string>, d: char)
    requires |fs| > 0 && fs[0] != []
    ensures Join(fs, d) != []
  {
    if |fs| > 1 {
      assert Join(fs, d) == fs[0] + [d] + Join(fs[1..], d);
    }
  }

  /**
   * Cleaning the text `'\n'.join(features)` gives the features back, for features that are
   * non-empty, stripped and on one line each.
   */
  lemma CleanFeaturesJoin(fs: seq<string>)
    requires AllCleanFeatures(fs)
    ensures CleanFeaturesText(Join(fs, '\n')) == fs
  {
    if fs != [] {
      JoinNonEmpty(fs, '\n');
      SplitJoin(fs, '\n');
      StripNonBlankClean(fs);
    }
  }

  /** The initial text of `features_text` in `ApplicationForm.__init__`: blank unless editing a saved application with features. */
  function InitialFeaturesText(pk: Option<int>, features: seq<string>): (text: string)
    ensures pk.None? || features == [] ==> text == []
    ensures pk.Some? && AllCleanFeatures(features) ==> CleanFeaturesText(text) == features
  {
    if pk.Some? && features != [] then
      var text := Join(features, '\n');
      if AllCleanFeatures(features) then CleanFeaturesJoin(features); text else text
    else []
  }

  /** The application an ApplicationForm saves. */
  class ApplicationInstance {
    var pk: Option<int>
    var features: seq<string>

    constructor (pk: Option<int>, features: seq<string>)
      ensures this.pk == pk && this.features == features
    {
      this.pk := pk;
      this.features := features;
    }

    /** `ApplicationForm.save`: the features become the cleaned features text. */
    method Save(featuresText: string)
      modifies this
      ensures features == CleanFeaturesText(featuresText) && AllCleanFeatures(features)
      ensures pk == old(pk)
    {
      features := CleanFeaturesText(featuresText);
    }
  }

  /** Opening a saved application for editing and saving it unchanged keeps its features. */
  method EditAndSave(app: ApplicationInstance)
    requires app.pk.Some? && AllCleanFeatures(app.features)
    modifies app
    ensures app.features == old(app.features)
  {
    var text := InitialFeaturesText(app.pk, app.features);
    app.Save(text);
  }

  // ---------------------------------------------------------------------------
  // ArtifactForm
  // ---------------------------------------------------------------------------

  /** An uploaded file; a file whose name is empty is falsy in Python. */
  datatype UploadedFile = UploadedFile(name: string, size: nat)

  datatype UploadError = FileTooLarge | TypeNotAllowed(extension: string)

  const MaxUploadSize: nat := 10 * 1024 * 1024

  const AllowedExtensions: seq<string> :=
    ["pdf", "doc", "docx", "txt", "py", "js", "html", "css", "md", "json", "xml"]

  /** `file.name.split('.')[-1].lower()`: the text after the last dot, or the whole name. */
  function FileExtension(name: string): (ext: string)
    ensures '.' !in ext
    ensures LastIndexOf(name, '.').None? ==> ext == Lower(name)
    ensures LastIndexOf(name, '.').Some? ==> ext == Lower(name[LastIndexOf(name, '.').value + 1..])
  {
    var parts := Split(name, '.');
    var last := parts[|parts| - 1];
    SplitLast(name, '.');
    assert forall i :: 0 <= i < |last| ==> Lower(last)[i] == LowerChar(last[i]);
    Lower(last)
  }

  /** `ArtifactForm.clean_file_upload`: at most 10 MB, and an allowed extension. */
  function CleanFileUpload(file: Option<UploadedFile>): (r: Result<Option<UploadedFile>, UploadError>)
    ensures r.Ok? ==> r.value == file
    ensures r.Ok? <==> (file.None? || file.value.name == []
      || (file.value.size <= MaxUploadSize && FileExtension(file.value.name) in AllowedExtensions))
    ensures r == Err(FileTooLarge) <==> file.Some? && file.value.name != [] && file.value.size > MaxUploadSize
  {
    if file.Some? && file.value.name != [] then
      if file.value.size > MaxUploadSize then Err(FileTooLarge)
      else
        var ext := FileExtension(file.value.name);
        if ext !in AllowedExtensions then Err(TypeNotAllowed(ext)) else Ok(file)
    else Ok(file)
  }

  /** `major, minor = map(int, version.split('.'))`, or None where that raises ValueError. */
  function ParseVersion(version: string): Option<(int, int)> {
    var parts := Split(version, '.');
    if |parts| == 2 && ParseInt(parts[0]).Some? && ParseInt(parts[1]).Some? then
      Some((ParseInt(parts[0]).value, ParseInt(parts[1]).value))
    else None
  }

  /** `f"{major}.{minor}"`. */
  function ShowVersion(major: int, minor: int): string {
    ShowInt(major) + "." + ShowInt(minor)
  }

  /** A version written out from two ints splits at its one dot. */
  lemma {:induction false} SplitShowVersion(major: int, minor: int)
    ensures Split(ShowVersion(major, minor), '.') == [ShowInt(major), ShowInt(minor)]
  {
    ShowIntHasNo(major, '.');
    ShowIntHasNo(minor, '.');
    SplitAt(ShowInt(major), ShowInt(minor), '.');
    SplitWithout(ShowInt(minor), '.');
  }

  /** A version written out from two ints reads back as those ints. */
  lemma {:induction false} ParseShowVersion(major: int, minor: int)
    ensures ParseVersion(ShowVersion(major, minor)) == Some((major, minor))
  {
    SplitShowVersion(major, minor);
    ParseShow(major);
    ParseShow(minor);
  }

  /**
   * The version `ArtifactForm.save` writes: when incrementing a saved artifact, `M.m`
   * becomes `M.(m+1)` and anything else `1.1`; otherwise an empty version becomes `1.0`
   * and any other stays as it was.
   */
  function NextVersion(version: string, increment: bool, saved: bool): (r: string)
    ensures !(increment && saved) ==> r == (if version == [] then "1.0" else version)
  {
    if increment && saved then BumpedVersion(ParseVersion(version))
    else if version == [] then "1.0"
    else version
  }

  /** The increment branch on the parsed version; ShowVersion(1, 1) is the text "1.1" (ShowVersionOneOne). */
  function BumpedVersion(parsed: Option<(int, int)>): string {
    if parsed.Some? then ShowVersion(parsed.value.0, parsed.value.1 + 1) else ShowVersion(1, 1)
  }

  /** Bumping `M.m` gives `M.(m+1)`, which reads back as those numbers. */
  lemma {:induction false} NextVersionBumps(version: string, major: int, minor: int)
    requires ParseVersion(version) == Some((major, minor))
    ensures NextVersion(version, true, true) == ShowVersion(major, minor + 1)
    ensures ParseVersion(NextVersion(version, true, true)) == Some((major, minor + 1))
  {
    NextVersionParsed(version, major, minor);
    ParseShowVersion(major, minor + 1);
  }

  /** On a parsed version the increment branch writes it out with the minor bumped. */
  lemma {:induction false} NextVersionParsed(version: string, major: int, minor: int)
    requires ParseVersion(version) == Some((major, minor))
    ensures NextVersion(version, true, true) == ShowVersion(major, minor + 1)
  {
    assert NextVersion(version, true, true) == BumpedVersion(Some((major, minor)));
  }

  lemma ShowVersionOneOne()
    ensures ShowVersion(1, 1) == "1.1"
  {
    assert ShowInt(1) == [DigitChar(1)] == ['1'];
  }

  /** Bumping a version that is not `M.m` gives `1.1`, which reads back as 1 and 1. */
  lemma {:induction false} NextVersionUnparsed(version: string)
    requires ParseVersion(version).None?
    ensures NextVersion(version, true, true) == "1.1"
    ensures ParseVersion(NextVersion(version, true, true)) == Some((1, 1))
  {
    ShowVersionOneOne();
    ParseShowVersion(1, 1);
  }

  /** Bumping a version written out from two ints adds one to the minor number. */
  lemma {:induction false} NextVersionBumpsMinor(major: int, minor: int)
    ensures NextVersion(ShowVersion(major, minor), true, true) == ShowVersion(major, minor + 1)
  {
    ParseShowVersion(major, minor);
    NextVersionBumps(ShowVersion(major, minor), major, minor);
  }

  /** The artifact an ArtifactForm saves. */
  class ArtifactInstance {
    var pk: Option<int>
    var version: string

    constructor (pk: Option<int>, version: string)
      ensures this.pk == pk && this.version == version
    {
      this.pk := pk;
      this.version := version;
    }

    /** `ArtifactForm.save`: the version increment, before writing the row. */
    method Save(incrementVersion: bool)
      modifies this
      ensures version == NextVersion(old(version), incrementVersion, old(pk).Some?)
      ensures pk == old(pk)
    {
      if incrementVersion && pk.Some? {
        var parsed := ParseVersion(version);
        if parsed.Some? {
          var (major, minor) := parsed.value;
          version := ShowVersion(major, minor + 1);
        } else {
          version := "1.1";
        }
      } else if version == [] {
        version := "1.0";
      }
    }
  }

  // ---------------------------------------------------------------------------
  // TaskForm
  // ---------------------------------------------------------------------------

  const DueDateInPast := "Due date cannot be in the past."
  const HoursExceedEstimate := "Actual hours significantly exceed estimate. Consider updating the estimate."

  /**
   * `TaskForm.clean`: the errors it leaves on the form. A past due date on a new task is
   * raised, and stops the check; otherwise actual hours more than twice the estimate add
   * an error on `actual_hours`.
   */
  function TaskFormClean(dueDate: Option<Date>, isNew: bool, estimatedHours: Option<nat>,
                         actualHours: Option<nat>, today: Date): (errs: seq<FormError>)
    ensures |errs| <= 1
    ensures FieldError("due_date", DueDateInPast) in errs <==> isNew && dueDate.Some? && dueDate.value < today
    ensures FieldError("actual_hours", HoursExceedEstimate) in errs <==>
      !(isNew && dueDate.Some? && dueDate.value < today)
      && Truthy(estimatedHours) && Truthy(actualHours) && actualHours.value > 2 * estimatedHours.value
    ensures !isNew ==> FieldError("due_date", DueDateInPast) !in errs
    ensures errs == [] <==>
      && !(isNew && dueDate.Some? && dueDate.value < today)
      && !(Truthy(estimatedHours) && Truthy(actualHours) && actualHours.value > 2 * estimatedHours.value)
  {
    if dueDate.Some? && isNew && dueDate.value < today then
      [FieldError("due_date", DueDateInPast)]
    else if Truthy(estimatedHours) && Truthy(actualHours) && actualHours.value > estimatedHours.value * 2 then
      [FieldError("actual_hours", HoursExceedEstimate)]
    else []
  }

  // ---------------------------------------------------------------------------
  // BulkTaskForm
  // ---------------------------------------------------------------------------

  const BulkActions: seq<string> := ["complete", "in_progress", "pending", "change_assignee", "update_due_date"]
  const Assignees: seq<string> := ["claude", "github-copilot", "human", "team"]

  datatype BulkError =
    | AssigneeRequired
    | DueDateRequired
    | NoTasksSelected
    | NoValidIds
    | InvalidIdsFormat

  /** A piece that is not blank and that `int` rejects. */
  predicate BadIdPiece(piece: string) {
    Strip(piece) != [] && ParseInt(piece).None?
  }

  /** `[int(id) for id in pieces if id.strip()]`; None where an `int` raises ValueError. */
  function ParseIdPieces(pieces: seq<string>): (r: Option<seq<int>>)
    ensures r.None? <==> exists p :: p in pieces && BadIdPiece(p)
    ensures r.Some? ==> |r.value| <= |pieces|
  {
    if pieces == [] then Some([])
    else
      var rest := ParseIdPieces(pieces[1..]);
      assert forall p :: p in pieces <==> p == pieces[0] || p in pieces[1..] by {
        assert pieces == [pieces[0]] + pieces[1..];
      }
      if Strip(pieces[0]) == [] then rest
      else match ParseInt(pieces[0])
        case None => assert BadIdPiece(pieces[0]); None
        case Some(id) => if rest.Some? then Some([id] + rest.value) else None
  }

  /** The comma-separated id list of `selected_tasks`. */
  function ParseIds(selected: string): Option<seq<int>> {
    ParseIdPieces(Split(selected, ','))
  }

  /** One piece: a blank one gives no id, another gives the id `int` reads, or fails. */
  lemma {:induction false} ParseIdPiecesOne(piece: string)
    ensures ParseIdPieces([piece]) ==
      if Strip(piece) == [] then Some([])
      else if ParseInt(piece).Some? then Some([ParseInt(piece).value])
      else None
  {
    assert [piece][1..] == [];
    assert ParseIdPieces([piece][1..]) == Some([]);
    if Strip(piece) != [] && ParseInt(piece).Some? {
      assert [ParseInt(piece).value] + [] == [ParseInt(piece).value];
    }
  }

  /** The first piece is read before the others. */
  lemma {:induction false} ParseIdPiecesCons(piece: string, rest: seq<string>)
    ensures ParseIdPieces([piece] + rest) ==
      if Strip(piece) == [] then ParseIdPieces(rest)
      else if ParseInt(piece).None? || ParseIdPieces(rest).None? then None
      else Some([ParseInt(piece).value] + ParseIdPieces(rest).value)
  {
    assert ([piece] + rest)[0] == piece;
    assert ([piece] + rest)[1..] == rest;
  }

  /** Two id lists read one after the other: both must parse. */
  function CombineIds(x: Option<seq<int>>, y: Option<seq<int>>): Option<seq<int>> {
    if x.Some? && y.Some? then Some(x.value + y.value) else None
  }

  /** No ids read first leaves the other list as it is. */
  lemma CombineIdsNil(y: Option<seq<int>>)
    ensures CombineIds(Some([]), y) == y
  {
    if y.Some? {
      assert [] + y.value == y.value;
    }
  }

  /** A leading id read before two lists joins the first of them. */
  lemma CombineIdsCons(id: int, x: Option<seq<int>>, y: Option<seq<int>>)
    ensures (if CombineIds(x, y).Some? then Some([id] + CombineIds(x, y).value) else None)
      == CombineIds(if x.Some? then Some([id] + x.value) else None, y)
  {
    if x.Some? && y.Some? {
      assert [id] + (x.value + y.value) == ([id] + x.value) + y.value;
    }
  }

  /** The pieces are read one after another: the ids of `a + b` are those of `a`, then those of `b`. */
  lemma {:induction false} ParseIdPiecesAppend(a: seq<string>, b: seq<string>)
    ensures ParseIdPieces(a + b) == CombineIds(ParseIdPieces(a), ParseIdPieces(b))
  {
    if a == [] {
      assert a + b == b;
      CombineIdsNil(ParseIdPieces(b));
    } else {
      var h, t := a[0], a[1..];
      assert a == [h] + t;
      assert a + b == [h] + (t + b);
      ParseIdPiecesCons(h, t);
      ParseIdPiecesCons(h, t + b);
      ParseIdPiecesAppend(t, b);
      if Strip(h) != [] && ParseInt(h).Some? {
        CombineIdsCons(ParseInt(h).value, ParseIdPieces(t), ParseIdPieces(b));
      }
    }
  }

  /** The text before the first comma is read first, then the rest of the selection. */
  lemma {:induction false} ParseIdsCons(piece: string, rest: string)
    requires ',' !in piece
    ensures ParseIds(piece + [','] + rest) == CombineIds(ParseIdPieces([piece]), ParseIds(rest))
  {
    SplitAt(piece, rest, ',');
    ParseIdPiecesAppend([piece], Split(rest, ','));
  }

  function ShowInts(ids: seq<int>): (r: seq<string>)
    ensures |r| == |ids|
    ensures forall i :: 0 <= i < |r| ==> r[i] == ShowInt(ids[i])
  {
    if ids == [] then [] else [ShowInt(ids[0])] + ShowInts(ids[1..])
  }

  lemma {:induction false} ParseShowInts(ids: seq<int>)
    ensures ParseIdPieces(ShowInts(ids)) == Some(ids)
  {
    if ids != [] {
      ParseShowInts(ids[1..]);
      ShowIntStripped(ids[0]);
      ParseShow(ids[0]);
      assert ShowInts(ids)[1..] == ShowInts(ids[1..]);
      assert [ids[0]] + ids[1..] == ids;
    }
  }

  /** The ids written out with `','.join(map(str, ids))` parse back as those ids. */
  lemma {:induction false} ParseIdsJoin(ids: seq<int>)
    requires |ids| > 0
    ensures ParseIds(Join(ShowInts(ids), ',')) == Some(ids)
  {
    forall i | 0 <= i < |ids| ensures ',' !in ShowInts(ids)[i] {
      ShowIntHasNo(ids[i], ',');
    }
    SplitJoin(ShowInts(ids), ',');
    ParseShowInts(ids);
  }

  /** `change_assignee` without a (truthy) assignee. */
  predicate AssigneeMissing(action: Option<string>, newAssignee: Option<string>) {
    action == Some("change_assignee") && (newAssignee.None? || newAssignee.value == [])
  }

  /** `update_due_date` without a date. */
  predicate DueDateMissing(action: Option<string>, newDueDate: Option<Date>) {
    action == Some("update_due_date") && newDueDate.None?
  }

  /**
   * `BulkTaskForm.clean` over the cleaned field values: the parameter the action needs,
   * then a non-blank selection, then an id list that parses and is not empty.
   */
  function BulkTaskClean(action: Option<string>, newAssignee: Option<string>, newDueDate: Option<Date>,
                         selectedTasks: Option<string>): (r: Result<seq<int>, BulkError>)
    ensures r.Ok? ==> |r.value| > 0
    ensures AssigneeMissing(action, newAssignee) ==> r == Err(AssigneeRequired)
    ensures DueDateMissing(action, newDueDate) ==> r == Err(DueDateRequired)
    ensures r.Ok? ==> selectedTasks.Some? && ParseIds(selectedTasks.value) == Some(r.value)
    ensures r.Ok? <==>
      && !AssigneeMissing(action, newAssignee) && !DueDateMissing(action, newDueDate)
      && selectedTasks.GetOr([]) != [] && ParseIds(selectedTasks.value).Some? && ParseIds(selectedTasks.value).value != []
    ensures r == Err(NoTasksSelected) <==>
      !AssigneeMissing(action, newAssignee) && !DueDateMissing(action, newDueDate) && selectedTasks.GetOr([]) == []
    ensures r == Err(InvalidIdsFormat) <==>
      && !AssigneeMissing(action, newAssignee) && !DueDateMissing(action, newDueDate)
      && selectedTasks.GetOr([]) != [] && ParseIds(selectedTasks.value).None?
    ensures r == Err(NoValidIds) <==>
      && !AssigneeMissing(action, newAssignee) && !DueDateMissing(action, newDueDate)
      && selectedTasks.GetOr([]) != [] && ParseIds(selectedTasks.value) == Some([])
  {
    if AssigneeMissing(action, newAssignee) then Err(AssigneeRequired)
    else if DueDateMissing(action, newDueDate) then Err(DueDateRequired)
    else
      var selected := selectedTasks.GetOr([]);
      if selected == [] then Err(NoTasksSelected)
      else match ParseIds(selected)
        case None => Err(InvalidIdsFormat)
        case Some(ids) => if ids == [] then Err(NoValidIds) else Ok(ids)
  }

  /** What a valid BulkTaskForm hands to the view. */
  datatype BulkRequest = BulkRequest(action: string, newAssignee: string, newDueDate: Option<Date>, taskIds: seq<int>)

  /** The field checks: action required and one of the choices, assignee blank or a choice, a selection after stripping. */
  predicate BulkTaskFieldsOk(action: string, newAssignee: string, selectedTasks: string) {
    action in BulkActions && (newAssignee == [] || newAssignee in Assignees) && Strip(selectedTasks) != []
  }

  /**
   * `BulkTaskForm.is_valid()` on the submitted values: the field checks (action required and
   * one of the choices, assignee blank or one of the choices, selection required after
   * stripping) and then `clean`.
   */
  function BulkTaskFormValid(action: string, newAssignee: string, newDueDate: Option<Date>,
                             selectedTasks: string): (r: Option<BulkRequest>)
    ensures r.Some? ==> r.value.action in BulkActions && |r.value.taskIds| > 0
    ensures r.Some? && r.value.action == "change_assignee" ==> r.value.newAssignee in Assignees
    ensures r.Some? && r.value.action == "update_due_date" ==> r.value.newDueDate.Some?
    ensures r.Some? ==> ParseIds(Strip(selectedTasks)) == Some(r.value.taskIds)
    ensures r.Some? <==>
      && BulkTaskFieldsOk(action, newAssignee, selectedTasks)
      && BulkTaskClean(Some(action), Some(newAssignee), newDueDate, Some(Strip(selectedTasks))).Ok?
    ensures r.Some? ==> r.value == BulkRequest(action, newAssignee, newDueDate, r.value.taskIds)
  {
    if !BulkTaskFieldsOk(action, newAssignee, selectedTasks) then None
    else match BulkTaskClean(Some(action), Some(newAssignee), newDueDate, Some(Strip(selectedTasks)))
      case Err(_) => None
      case Ok(ids) => Some(BulkRequest(action, newAssignee, newDueDate, ids))
  }

  /**
   * A selection the page writes out for some tasks, with a status action (one that needs
   * no assignee or date), is accepted as exactly those ids.
   */
  lemma {:induction false} BulkTaskFormAccepts(action: string, ids: seq<int>)
    requires action in BulkActions && action != "change_assignee" && action != "update_due_date"
    requires |ids| > 0
    ensures BulkTaskFormValid(action, [], None, Join(ShowInts(ids), ',')) ==
      Some(BulkRequest(action, [], None, ids))
  {
    var text := Join(ShowInts(ids), ',');
    ParseIdsJoin(ids);
    JoinShowIntsStripped(ids);
    BulkTaskCleanAccepts(action, text, ids);
    BulkTaskFormValidAccepts(action, text, ids);
  }

  lemma {:induction false} BulkTaskFormValidAccepts(action: string, text: string, ids: seq<int>)
    requires action in BulkActions && action != "change_assignee" && action != "update_due_date"
    requires text != [] && Strip(text) == text
    requires BulkTaskClean(Some(action), Some([]), None, Some(text)) == Ok(ids)
    ensures BulkTaskFormValid(action, [], None, text) == Some(BulkRequest(action, [], None, ids))
  {
  }

  lemma {:induction false} BulkTaskCleanAccepts(action: string, text: string, ids: seq<int>)
    requires action != "change_assignee" && action != "update_due_date"
    requires text != [] && ParseIds(text) == Some(ids) && |ids| > 0
    ensures BulkTaskClean(Some(action), Some([]), None, Some(text)) == Ok(ids)
  {
  }

  lemma {:induction false} JoinShowIntsStripped(ids: seq<int>)
    requires |ids| > 0
    ensures Join(ShowInts(ids), ',') != []
    ensures Strip(Join(ShowInts(ids), ',')) == Join(ShowInts(ids), ',')
  {
    var text := Join(ShowInts(ids), ',');
    JoinEnds(ShowInts(ids), ',');
    ShowIntStripped(ids[0]);
    ShowIntStripped(ids[|ids| - 1]);
    StripStripped(text);
  }

  /** A join of non-empty pieces begins with the first piece's first character and ends with the last piece's last. */
  lemma {:induction false} JoinEnds(parts: seq<string>, d: char)
    requires |parts| > 0 && forall i :: 0 <= i < |parts| ==> parts[i] != []
    ensures Join(parts, d) != []
    ensures Join(parts, d)[0] == parts[0][0]
    ensures Join(parts, d)[|Join(parts, d)| - 1] == parts[|parts| - 1][|parts[|parts| - 1]| - 1]
  {
    if |parts| > 1 {
      JoinEnds(parts[1..], d);
    }
  }

  // ---------------------------------------------------------------------------
  // IntegrationForm
  // ---------------------------------------------------------------------------

  const SameAppError := "Source and target applications cannot be the same."

  /**
   * `IntegrationForm.clean`: the same application twice is an error on `to_app`;
   * applications of different projects are an error on the form.
   */
  function IntegrationFormClean(fromApp: Option<Application>, toApp: Option<Application>): (err: Option<FormError>)
    ensures err.None? <==> fromApp.None? || toApp.None? || (fromApp.value.id != toApp.value.id && fromApp.value.projectId == toApp.value.projectId)
    ensures fromApp.Some? && toApp.Some? && fromApp.value.id == toApp.value.id ==> err == Some(FieldError("to_app", SameAppError))
    ensures fromApp.Some? && toApp.Some? && fromApp.value.id != toApp.value.id && fromApp.value.projectId != toApp.value.projectId ==>
      err == Some(NonFieldError(CrossProjectError))
  {
    if fromApp.Some? && toApp.Some? && fromApp.value.id == toApp.value.id then
      Some(FieldError("to_app", SameAppError))
    else if fromApp.Some? && toApp.Some? && fromApp.value.projectId != toApp.value.projectId then
      Some(NonFieldError(CrossProjectError))
    else None
  }

  /** The form and the model reject the same pairs of applications. */
  lemma IntegrationFormAgreesWithModel(fromApp: Application, toApp: Application)
    ensures IntegrationFormClean(Some(fromApp), Some(toApp)).None? <==> IntegrationClean(fromApp, toApp).None?
  {
  }
}
