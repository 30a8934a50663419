/** The admin form that creates or edits one portfolio project. The
    tech-stack conversions and the form's initial contents are functions; the
    component's state and its submit handler are class `ProjectModal`. The
    storage service, the signed-in user and the database write are answers
    passed in as parameters. */
module Projects {
  import opened Js
  import Text
  import Storage

  /** A row of the `projects` table as the dashboard hands it to the form;
      a column that is null or missing is `None`. */
  datatype Project = Project(
    id: Option<string>,
    title: Option<string>,
    description: Option<string>,
    repoUrl: Option<string>,
    liveUrl: Option<string>,
    techStack: Option<seq<string>>,
    imageUrl: Option<string>)

  /** `formData`: every field is text, the tech stack as one comma-separated
      string. */
  datatype FormData = FormData(
    title: string,
    description: string,
    repoUrl: string,
    liveUrl: string,
    techStack: string,
    imageUrl: string)

  /** The `name` attribute of each input; the image URL has no input. */
  datatype Field = Title | Description | RepoUrl | LiveUrl | TechStack

  /** The record written to the `projects` table. */
  datatype ProjectData = ProjectData(
    title: string,
    description: string,
    repoUrl: string,
    liveUrl: string,
    techStack: seq<string>,
    imageUrl: string,
    userId: string)

  /** The database request: update the row with that id, or insert a row. */
  datatype WriteRequest = Update(id: string, data: ProjectData) | Insert(data: ProjectData)

  /** The parent's callbacks, in the order they are called. */
  datatype Callback = OnSave | OnClose

  const EmptyForm := FormData("", "", "", "", "", "")

  const SaveErrorMessage := "Erro ao salvar o projeto. Tente novamente."

  /** A tech-stack entry as the form produces it: non-empty, without
      surrounding whitespace, and without a comma. */
  predicate CleanEntry(t: string)
  {
    t != "" && Text.Trimmed(t) && ',' !in t
  }

  predicate CleanList(xs: seq<string>)
  {
    forall i :: 0 <= i < |xs| ==> CleanEntry(xs[i])
  }

  /** `s.split(',').map(t => t.trim()).filter(t => t)`. */
  function ParseTechStack(s: string): (xs: seq<string>)
    ensures CleanList(xs)
  {
    var parts := Text.Split(s, ',');
    var trimmed := Text.TrimAll(parts);
    forall i | 0 <= i < |trimmed| ensures Text.Trimmed(trimmed[i]) && ',' !in trimmed[i] {
      assert trimmed[i] == Text.Trim(parts[i]);
      assert ',' !in parts[i];
    }
    DropEmptyClean(trimmed);
    Text.DropEmpty(trimmed)
  }

  lemma {:induction false} DropEmptyClean(xs: seq<string>)
    requires forall i :: 0 <= i < |xs| ==> Text.Trimmed(xs[i]) && ',' !in xs[i]
    ensures CleanList(Text.DropEmpty(xs))
  {
    if xs != [] {
      DropEmptyClean(xs[1..]);
    }
  }

  /** `xs.join(', ')`: a clean list of `n` entries becomes a text with
      exactly `n - 1` commas, one between each two entries. */
  function FormatTechStack(xs: seq<string>): (r: string)
    ensures CleanList(xs) && xs != [] ==> Text.Count(r, ',') == |xs| - 1
  {
    assert CleanList(xs) && xs != [] ==> Text.Count(Text.Join(xs, ", "), ',') == |xs| - 1 by {
      if CleanList(xs) && xs != [] {
        JoinPadded(xs);
        PaddedPieces(xs);
        Text.SplitJoin(Padded(xs), ',');
      }
    }
    Text.Join(xs, ", ")
  }

  /** The pieces `join(', ')` leaves between the commas: the first entry,
      then each later one with the space in front. */
  function Padded(xs: seq<string>): seq<string>
  {
    if |xs| <= 1 then xs else [xs[0]] + PadAll(xs[1..])
  }

  function PadAll(xs: seq<string>): (r: seq<string>)
    ensures |r| == |xs|
    ensures forall i :: 0 <= i < |xs| ==> r[i] == " " + xs[i]
  {
    if xs == [] then [] else [" " + xs[0]] + PadAll(xs[1..])
  }

  lemma {:induction false} JoinPadAll(xs: seq<string>)
    requires |xs| >= 1
    ensures Text.Join(PadAll(xs), ",") == " " + Text.Join(xs, ", ")
    decreases |xs|
  {
    if |xs| > 1 {
      JoinPadAll(xs[1..]);
      assert PadAll(xs)[1..] == PadAll(xs[1..]);
    }
  }

  lemma JoinPadded(xs: seq<string>)
    ensures Text.Join(Padded(xs), ",") == Text.Join(xs, ", ")
  {
    if |xs| > 1 {
      JoinPadAll(xs[1..]);
      assert Padded(xs)[1..] == PadAll(xs[1..]);
    }
  }

  /** The pieces of a clean list's text, split at the commas. */
  lemma PaddedPieces(xs: seq<string>)
    requires CleanList(xs) && xs != []
    ensures |Padded(xs)| == |xs| && Padded(xs)[0] == xs[0]
    ensures forall i :: 0 < i < |xs| ==> Padded(xs)[i] == " " + xs[i]
    ensures forall i :: 0 <= i < |xs| ==> ',' !in Padded(xs)[i]
  {
    var pieces := Padded(xs);
    forall i | 0 <= i < |pieces| ensures ',' !in pieces[i] {
      if i > 0 { assert pieces[i] == " " + xs[i]; }
    }
  }

  /** Trimming each piece gives back the entries. */
  lemma TrimPieces(xs: seq<string>)
    requires CleanList(xs) && xs != []
    ensures Text.TrimAll(Padded(xs)) == xs
  {
    var pieces := Padded(xs);
    PaddedPieces(xs);
    forall i | 0 <= i < |xs| ensures Text.Trim(pieces[i]) == xs[i] {
      if i == 0 {
        Text.TrimOfTrimmed(xs[0]);
      } else {
        Text.TrimOfPadded(xs[i]);
      }
    }
  }

  /** Formatting a list of clean entries and parsing the text back gives the
      same list. */
  lemma TechStackRoundTrip(xs: seq<string>)
    requires CleanList(xs)
    ensures ParseTechStack(FormatTechStack(xs)) == xs
  {
    if xs == [] {
      assert Text.Split("", ',') == [""];
    } else {
      var text := FormatTechStack(xs);
      JoinPadded(xs);
      PaddedPieces(xs);
      Text.SplitJoin(Padded(xs), ',');
      assert Text.Split(text, ',') == Padded(xs);
      TrimPieces(xs);
      assert Text.DropEmpty(xs) == xs;
    }
  }

  /** Parsing is a normal form: the text of a parsed list parses to the same
      list, so saving a project and editing it again keeps its tech stack. */
  lemma ParseFormatParse(s: string)
    ensures ParseTechStack(FormatTechStack(ParseTechStack(s))) == ParseTechStack(s)
  {
    TechStackRoundTrip(ParseTechStack(s));
  }

  /** The form contents when the modal opens: empty for a new project, the
      project's columns (with `''` for a missing one) when editing. */
  function FormFor(project: Option<Project>): (f: FormData)
    ensures project.None? ==> f == EmptyForm
    ensures project.Some? ==>
      var p := project.value;
      && f.title == OrEmpty(p.title) && f.description == OrEmpty(p.description)
      && f.repoUrl == OrEmpty(p.repoUrl) && f.liveUrl == OrEmpty(p.liveUrl)
      && f.imageUrl == OrEmpty(p.imageUrl)
      && f.techStack == (if p.techStack.Some? then FormatTechStack(p.techStack.value) else "")
    // an unchanged tech stack of clean entries is written back as it was read
    ensures project.Some? && project.value.techStack.Some? && CleanList(project.value.techStack.value) ==> ParseTechStack(f.techStack) == project.value.techStack.value
  {
    match project
    case None => EmptyForm
    case Some(p) =>
      assert p.techStack.Some? && CleanList(p.techStack.value)
        ==> ParseTechStack(FormatTechStack(p.techStack.value)) == p.techStack.value by {
        if p.techStack.Some? && CleanList(p.techStack.value) {
          TechStackRoundTrip(p.techStack.value);
        }
      }
      FormData(
        title := OrEmpty(p.title),
        description := OrEmpty(p.description),
        repoUrl := OrEmpty(p.repoUrl),
        liveUrl := OrEmpty(p.liveUrl),
        techStack := if p.techStack.Some? then FormatTechStack(p.techStack.value) else "",
        imageUrl := OrEmpty(p.imageUrl))
  }

  function Get(f: FormData, field: Field): string
  {
    match field
    case Title => f.title
    case Description => f.description
    case RepoUrl => f.repoUrl
    case LiveUrl => f.liveUrl
    case TechStack => f.techStack
  }

  /** `{ ...formData, [name]: value }`. */
  function SetField(f: FormData, field: Field, value: string): (r: FormData)
    ensures Get(r, field) == value
    ensures forall other :: other != field ==> Get(r, other) == Get(f, other)
    ensures r.imageUrl == f.imageUrl
  {
    match field
    case Title => f.(title := value)
    case Description => f.(description := value)
    case RepoUrl => f.(repoUrl := value)
    case LiveUrl => f.(liveUrl := value)
    case TechStack => f.(techStack := value)
  }

  /** `project?.id`: the form edits an existing row. */
  predicate HasId(project: Option<Project>)
  {
    project.Some? && Truthy(project.value.id)
  }

  /** What one submission does: the upload step, the database request (if
      the handler gets that far) and whether the project was saved. */
  datatype SubmitResult = SubmitResult(upload: Storage.UploadResult, write: Option<WriteRequest>, saved: bool)

  /** The submission as a whole: upload the chosen image (if any), build the
      record from the form, then update the row when the project has an id
      and insert one otherwise. A failed upload, a missing user or a failed
      write stops it. */
  function Submission(
    form: FormData, project: Option<Project>, imageFile: Option<Storage.File>,
    nonce: string, upload: Storage.UploadOutcome, userId: Option<string>, writeOk: bool): (r: SubmitResult)
    ensures r.upload == Storage.Upload(imageFile, "", nonce, upload)
    ensures r.write.Some? <==> !r.upload.UploadFailed? && userId.Some?
    ensures r.saved <==> r.write.Some? && writeOk
    ensures r.write.Some? ==>
      var w := r.write.value;
      && (w.Update? <==> HasId(project))
      && (w.Update? ==> w.id == project.value.id.value)
      && w.data.title == form.title && w.data.description == form.description
      && w.data.repoUrl == form.repoUrl && w.data.liveUrl == form.liveUrl
      && w.data.techStack == ParseTechStack(form.techStack)
      && w.data.imageUrl == (if imageFile.None? then form.imageUrl else upload.publicUrl)
      && w.data.userId == userId.value
  {
    var up := Storage.Upload(imageFile, "", nonce, upload);
    if up.UploadFailed? || userId.None? then SubmitResult(up, None, false)
    else
      var imageUrl := if up.NoFile? then form.imageUrl else up.url;
      var data := ProjectData(form.title, form.description, form.repoUrl, form.liveUrl,
                              ParseTechStack(form.techStack), imageUrl, userId.value);
      var w := if HasId(project) then Update(project.value.id.value, data) else Insert(data);
      SubmitResult(up, Some(w), writeOk)
  }

  /** What a submission works on: the form and the chosen file as they were
      when the user pressed save (the values the handler's closure holds). */
  datatype Draft = Draft(form: FormData, image: Option<Storage.File>)

  /** The modal component. */
  class ProjectModal {
    const project: Option<Project>
    var formData: FormData
    var imageFile: Option<Storage.File>
    var previewUrl: Option<string>
    var loading: bool
    var error: Option<string>
    /** The parent's callbacks called so far. */
    var called: seq<Callback>
    /** The draft the submission in progress works on, if there is one. */
    var pending: Option<Draft>

    /** The modal once mounted, after its effect has copied the project in. */
    constructor (project: Option<Project>)
      ensures this.project == project
      ensures formData == FormFor(project)
      ensures previewUrl == (if project.Some? then project.value.imageUrl else None)
      ensures imageFile == None && !loading && error == None && called == []
      ensures pending == None
    {
      this.project := project;
      formData := FormFor(project);
      previewUrl := if project.Some? then project.value.imageUrl else None;
      imageFile := None;
      loading := false;
      error := None;
      called := [];
      pending := None;
    }

    /** `handleChange`: only the named field takes the typed value. */
    method HandleChange(field: Field, value: string)
      modifies this
      ensures formData == SetField(old(formData), field, value)
      ensures imageFile == old(imageFile) && previewUrl == old(previewUrl)
      ensures loading == old(loading) && error == old(error) && called == old(called)
      ensures pending == old(pending)
    {
      formData := SetField(formData, field, value);
    }

    /** `handleImageChange`: a chosen file replaces the pending image and is
        previewed through its object URL; an empty choice changes nothing. */
    method HandleImageChange(file: Option<Storage.File>, objectUrl: string)
      modifies this
      ensures file.Some? ==> imageFile == file && previewUrl == Some(objectUrl)
      ensures file.None? ==> imageFile == old(imageFile) && previewUrl == old(previewUrl)
      ensures formData == old(formData) && loading == old(loading) && error == old(error) && called == old(called)
      ensures pending == old(pending)
    {
      if file.Some? {
        imageFile := file;
        previewUrl := Some(objectUrl);
      }
    }

    /** `handleSubmit` up to its first await: busy, and no error shown. The
        save button is disabled while busy. The submission works on the form
        and the file as they are now, whatever is typed or chosen later. */
    method BeginSubmit()
      requires !loading
      modifies this
      ensures loading && error == None
      ensures pending == Some(Draft(formData, imageFile))
      ensures formData == old(formData) && imageFile == old(imageFile)
      ensures previewUrl == old(previewUrl) && called == old(called)
    {
      loading := true;
      error := None;
      pending := Some(Draft(formData, imageFile));
    }

    /** The rest of `handleSubmit`: on success the parent is told to reload
        and to close the modal; on any failure the error message is set and
        neither callback is called; either way the form is no longer busy. */
    method CompleteSubmit(nonce: string, upload: Storage.UploadOutcome, userId: Option<string>, writeOk: bool)
      returns (r: SubmitResult)
      requires loading && error == None && pending.Some?
      modifies this
      ensures var d := old(pending).value; r == Submission(d.form, project, d.image, nonce, upload, userId, writeOk)
      ensures !loading
      ensures error == (if r.saved then None else Some(SaveErrorMessage))
      ensures called == old(called) + (if r.saved then [OnSave, OnClose] else [])
      ensures formData == old(formData) && imageFile == old(imageFile) && previewUrl == old(previewUrl)
      ensures pending == None
    {
      var draft := pending.value;
      r := Submission(draft.form, project, draft.image, nonce, upload, userId, writeOk);
      var notified: seq<Callback> := if r.saved then [OnSave, OnClose] else [];
      called, error, loading, pending := called + notified, (if r.saved then None else Some(SaveErrorMessage)), false, None;
    }
  }

  /** Typing while a submission is in progress does not change what it
      saves: the record carries the title as it was when save was pressed. */
  method EditWhileSaving(userId: string)
  {
    var modal := new ProjectModal(None);
    modal.HandleChange(Title, "Portfolio");
    modal.BeginSubmit();
    modal.HandleChange(Title, "Other");
    var r := modal.CompleteSubmit("0.5", Storage.UploadRejected, Some(userId), true);
    assert r.write.Some? && r.write.value.Insert?;
    assert r.write.value.data.title == "Portfolio";
    assert modal.formData.title == "Other";
  }
}
