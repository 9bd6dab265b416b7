/**
 * The admin prescription upload page: the file rules of its schema and the
 * gate in front of the form. The login, admin and loading flags are inputs.
 */
module PrescriptionUpload {
  import opened Wrappers
  import opened Forms

  /** 5 MB. */
  const MaxFileSize: nat := 5 * 1024 * 1024
  const AcceptedTypes: seq<string> := ["image/jpeg", "image/jpg", "image/png", "application/pdf"]

  const FileRequired := "Prescription file is required."
  const FileTooLarge := "Max file size is 5MB."
  const FileTypeRejected := ".jpg, .jpeg, .png and .pdf files are accepted."

  datatype UploadedFile = UploadedFile(name: string, size: nat, mimeType: string)

  /** The submitted values; `None` is an absent file list or an absent note. */
  datatype PrescriptionForm = PrescriptionForm(files: Option<seq<UploadedFile>>, notes: Option<string>)

  /** `files?.[0]` */
  function FirstFile(files: Option<seq<UploadedFile>>): (r: Option<UploadedFile>)
    ensures r.Some? <==> files.Some? && files.value != []
    ensures r.Some? ==> r.value == files.value[0]
  {
    if files.Some? && files.value != [] then Some(files.value[0]) else None
  }

  /** `files?.length === 1` */
  predicate OneFile(files: Option<seq<UploadedFile>>) {
    files.Some? && |files.value| == 1
  }

  /** `files?.[0]?.size <= MAX_FILE_SIZE`: false when there is no first file, as `undefined <= n` is. */
  predicate FirstFileFits(files: Option<seq<UploadedFile>>) {
    FirstFile(files).Some? && FirstFile(files).value.size <= MaxFileSize
  }

  /** `ACCEPTED_IMAGE_TYPES.includes(files?.[0]?.type)` */
  predicate FirstFileAccepted(files: Option<seq<UploadedFile>>) {
    FirstFile(files).Some? && FirstFile(files).value.mimeType in AcceptedTypes
  }

  predicate PrescriptionValid(f: PrescriptionForm) {
    OneFile(f.files) && FirstFileFits(f.files) && FirstFileAccepted(f.files)
  }

  /** The three refinements all run, so a missing file gets all three messages; the note is never checked. */
  function PrescriptionErrors(f: PrescriptionForm): (e: FieldErrors)
    ensures e == [] <==> PrescriptionValid(f)
    ensures f.files.None? ==> e == [FieldError("prescriptionFile", [FileRequired, FileTooLarge, FileTypeRejected])]
    ensures forall i :: 0 <= i < |e| ==> e[i].field == "prescriptionFile"
  {
    var messages :=
      Rule(!OneFile(f.files), FileRequired)
      + Rule(!FirstFileFits(f.files), FileTooLarge)
      + Rule(!FirstFileAccepted(f.files), FileTypeRejected);
    assert f.files.None? ==> messages == [FileRequired, FileTooLarge, FileTypeRejected];
    Issues("prescriptionFile", messages)
  }

  /** A valid upload is a single file of at most 5242880 bytes with one of the four accepted types. */
  lemma ValidUploadShape(f: PrescriptionForm)
    requires PrescriptionValid(f)
    ensures f.files.Some? && |f.files.value| == 1
    ensures f.files.value[0].size <= 5242880
    ensures f.files.value[0].mimeType in {"image/jpeg", "image/jpg", "image/png", "application/pdf"}
  {
  }

  /** The note has no say: any two forms with the same files are judged alike. */
  lemma NotesNeverReject(files: Option<seq<UploadedFile>>, notes: Option<string>)
    ensures PrescriptionErrors(PrescriptionForm(files, notes)) == PrescriptionErrors(PrescriptionForm(files, None))
  {
  }

  /** A second file is reported even when the first one is fine. */
  lemma SecondFileRejected(first: UploadedFile, second: UploadedFile, notes: Option<string>)
    requires first.size <= MaxFileSize && first.mimeType in AcceptedTypes
    ensures PrescriptionErrors(PrescriptionForm(Some([first, second]), notes)) == [FieldError("prescriptionFile", [FileRequired])]
  {
    var files := Some([first, second]);
    assert FirstFile(files) == Some(first);
    assert Rule(!OneFile(files), FileRequired) + Rule(!FirstFileFits(files), FileTooLarge) + Rule(!FirstFileAccepted(files), FileTypeRejected)
      == [FileRequired];
  }

  /** `${name} has been submitted for review.` */
  function SubmittedDescription(fileName: string): (d: string)
    ensures |d| > |fileName| && d[..|fileName|] == fileName
  {
    fileName + " has been submitted for review."
  }

  /** The page either shows the form or "Verifying access..." with a spinner. */
  datatype UploadView = VerifyingAccess | UploadForm

  /** The render condition `isLoadingAuth || !isLoggedIn || !isAdmin`. */
  function SelectUploadView(isLoadingAuth: bool, isLoggedIn: bool, isAdmin: bool): (v: UploadView)
    ensures v == UploadForm <==> !isLoadingAuth && isLoggedIn && isAdmin
  {
    if isLoadingAuth || !isLoggedIn || !isAdmin then VerifyingAccess else UploadForm
  }

  /** The effect: once loaded, anyone but a logged-in admin is sent home (with an "Access Denied" toast). */
  function UploadRedirect(isLoadingAuth: bool, isLoggedIn: bool, isAdmin: bool): (r: Option<string>)
    ensures r.Some? <==> !isLoadingAuth && (!isLoggedIn || !isAdmin)
    ensures r.Some? ==> r.value == "/"
  {
    if !isLoadingAuth && (!isLoggedIn || !isAdmin) then Some("/") else None
  }

  /** The form and the redirect exclude each other; while loading there is neither. */
  lemma GateConsistent(isLoadingAuth: bool, isLoggedIn: bool, isAdmin: bool)
    ensures SelectUploadView(isLoadingAuth, isLoggedIn, isAdmin) == UploadForm ==> UploadRedirect(isLoadingAuth, isLoggedIn, isAdmin).None?
    ensures isLoadingAuth ==> SelectUploadView(isLoadingAuth, isLoggedIn, isAdmin) == VerifyingAccess && UploadRedirect(isLoadingAuth, isLoggedIn, isAdmin).None?
    ensures !isLoadingAuth ==> (SelectUploadView(isLoadingAuth, isLoggedIn, isAdmin) == UploadForm <==> UploadRedirect(isLoadingAuth, isLoggedIn, isAdmin).None?)
  {
  }
}
