/** The task dialog of the Kanban board: classifying uploaded files by
    extension, the attachment list, and the submit and cancel handlers with
    their form reset. The form is the `TaskData` the board receives. */
module TaskDialog {
  import opened Api
  import Strings
  import KanbanBoard

  /** A file picked in the upload input; `objectUrl` stands for
      `URL.createObjectURL(file)`. */
  datatype PickedFile = PickedFile(name: string, objectUrl: string)

  /** The file's extension: the text after its last dot (the whole name when
      there is none), lowercased. */
  function Extension(fileName: string): (r: string)
    ensures |r| <= |fileName| && '.' !in r
  {
    Strings.ToLower(Strings.AfterLast(fileName, '.'))
  }

  predicate IsDocumentExtension(ext: string) {
    ext == "pdf" || ext == "doc" || ext == "docx"
  }

  predicate IsImageExtension(ext: string) {
    ext == "png" || ext == "jpg" || ext == "jpeg" || ext == "gif"
  }

  /** The attachment type of an extension. */
  function TypeOfExtension(ext: string): (r: string)
    ensures IsDocumentExtension(ext) <==> r == "document"
    ensures IsImageExtension(ext) <==> r == "image"
    ensures r == "document" || r == "image" || r == "file"
  {
    if IsDocumentExtension(ext) then "document"
    else if IsImageExtension(ext) then "image"
    else "file"
  }

  /** The attachment type `handleFileUpload` gives a file. */
  function Classify(fileName: string): string {
    TypeOfExtension(Extension(fileName))
  }

  /** Upper-case extensions count. */
  lemma ClassifyUpperCase()
    ensures Classify("report.PDF") == "document"
  {
    assert Strings.AfterLast("report.PDF", '.') == "PDF" by {
      assert "report.PDF"[..9] == "report.PD" && "report.PD"[..8] == "report.P" && "report.P"[..7] == "report.";
    }
    var e := Strings.ToLower("PDF");
    assert e[0] == 'p' && e[1] == 'd' && e[2] == 'f';
    assert e == "pdf";
  }

  /** Only the text after the last dot decides. */
  lemma ClassifyLastDot()
    ensures Classify("photo.tar.png") == "image"
  {
    assert Strings.AfterLast("photo.tar.png", '.') == "png" by {
      assert "photo.tar.png"[..12] == "photo.tar.pn" && "photo.tar.pn"[..11] == "photo.tar.p";
      assert "photo.tar.p"[..10] == "photo.tar.";
    }
    var e := Strings.ToLower("png");
    assert e[0] == 'p' && e[1] == 'n' && e[2] == 'g';
    assert e == "png";
  }

  /** A name without a dot is its own extension. */
  lemma ClassifyNoDot()
    ensures Classify("gif") == "image"
  {
    Strings.AfterLastAbsent("gif", '.');
    Strings.ToLowerUnchanged("gif");
  }

  function AttachmentOf(f: PickedFile): (r: KanbanBoard.Document)
    ensures r.name == f.name && r.url == f.objectUrl && r.docType == Classify(f.name)
  {
    KanbanBoard.Document(f.name, f.objectUrl, Classify(f.name))
  }

  /** `handleFileUpload`: nothing without a file list; otherwise one
      attachment per file, in order, after the existing ones. */
  function Upload(form: KanbanBoard.TaskData, files: Option<seq<PickedFile>>): (r: KanbanBoard.TaskData)
    ensures files.None? ==> r == form
    ensures files.Some? ==>
      && |r.attachments| == |form.attachments| + |files.value|
      && r.attachments[..|form.attachments|] == form.attachments
      && (forall k :: 0 <= k < |files.value| ==> r.attachments[|form.attachments| + k] == AttachmentOf(files.value[k]))
      && r.(attachments := form.attachments) == form
  {
    match files
    case None => form
    case Some(fs) =>
      form.(attachments := form.attachments + seq(|fs|, k requires 0 <= k < |fs| => AttachmentOf(fs[k])))
  }

  /** `attachments.filter((_, i) => i !== index)`, walking the list with the
      position `offset` of its first element. */
  function KeepOthers(a: seq<KanbanBoard.Document>, index: int, offset: int): (r: seq<KanbanBoard.Document>)
    ensures 0 <= index - offset < |a| ==> r == a[..index - offset] + a[index - offset + 1..]
    ensures !(0 <= index - offset < |a|) ==> r == a
  {
    if a == [] then []
    else
      var rest := KeepOthers(a[1..], index, offset + 1);
      if offset == index then rest else [a[0]] + rest
  }

  /** `removeAttachment(index)`: exactly that position goes and the rest
      keep their order; an index outside the list changes nothing. */
  function RemoveAttachment(form: KanbanBoard.TaskData, index: int): (r: KanbanBoard.TaskData)
    ensures 0 <= index < |form.attachments| ==>
      r.attachments == form.attachments[..index] + form.attachments[index + 1..]
    ensures !(0 <= index < |form.attachments|) ==> r == form
    ensures r.(attachments := form.attachments) == form
  {
    form.(attachments := KeepOthers(form.attachments, index, 0))
  }

  /** Removing the attachment just uploaded restores the form. */
  lemma UploadThenRemove(form: KanbanBoard.TaskData, f: PickedFile)
    ensures RemoveAttachment(Upload(form, Some([f])), |form.attachments|) == form
  {
    var u := Upload(form, Some([f]));
    assert u.attachments[..|form.attachments|] == form.attachments;
    assert u.attachments[|form.attachments| + 1..] == [];
  }

  /** The form after a reset in create mode. */
  const EmptyForm := KanbanBoard.TaskData("", "", "", "todo", "medium", "", [])

  datatype Mode = Create | Edit

  /** The dialog after a handler: its form, what was handed to the board (if
      anything), and whether `onOpenChange(false)` was called. */
  datatype DialogStep = DialogStep(form: KanbanBoard.TaskData, submitted: Option<KanbanBoard.TaskData>, closed: bool)

  /** `handleSubmit`: a title that is blank after trimming does nothing;
      otherwise the form goes to the board, the dialog closes, and in create
      mode the form is reset. */
  function Submit(form: KanbanBoard.TaskData, mode: Mode): (r: DialogStep)
    ensures Strings.Trim(form.title) == "" <==> r.submitted.None?
    ensures Strings.Trim(form.title) == "" ==> r == DialogStep(form, None, false)
    ensures r.submitted.Some? ==> r.submitted.value == form && r.closed
    ensures r.submitted.Some? ==> r.form == if mode == Create then EmptyForm else form
  {
    if Strings.Trim(form.title) != "" then
      DialogStep(if mode == Create then EmptyForm else form, Some(form), true)
    else DialogStep(form, None, false)
  }

  /** `handleCancel`: the dialog closes; in create mode the form is reset. */
  function Cancel(form: KanbanBoard.TaskData, mode: Mode): (r: DialogStep)
    ensures r.closed && r.submitted.None?
    ensures mode == Create ==> r.form == EmptyForm
    ensures mode == Edit ==> r.form == form
  {
    DialogStep(if mode == Create then EmptyForm else form, None, true)
  }

  /** In create mode a submitted or cancelled dialog starts the next task
      from the same empty form, which cannot itself be submitted. */
  lemma CreateModeResets(form: KanbanBoard.TaskData)
    requires Strings.Trim(form.title) != ""
    ensures Submit(form, Create).form == Cancel(form, Create).form == EmptyForm
    ensures Submit(EmptyForm, Create).submitted.None?
  {
    assert Strings.Trim("") == "";
  }
}
