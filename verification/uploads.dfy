/** The upload endpoint: validate the posted file part in order (present, named, allowed type)
    and record an `uploaded_files` row for an accepted file. */
module Uploads {
  import opened Wrappers
  import opened Text
  import opened Store

  /** The 13 lower-case extensions an upload may have. */
  const AllowedExtensions: set<string> :=
    {"txt", "pdf", "png", "jpg", "jpeg", "gif", "csv", "py", "js", "html", "css", "doc", "docx"}

  /** Where stored files go, joined to the stored name with '/'. */
  const UploadFolder := "uploads"

  /** `allowed_file`: the name has a '.', and the text after its last '.', lower-cased, is allowed.
      Such an extension has two to four characters, so the name does not end in '.'. */
  predicate AllowedFile(filename: string)
    ensures AllowedFile(filename) ==>
      && '.' in filename
      && Lower(Extension(filename).value) in AllowedExtensions
      && 2 <= |Extension(filename).value| <= 4
      && filename[|filename| - 1] != '.'
  {
    Extension(filename).Some? && Lower(Extension(filename).value) in AllowedExtensions
  }

  /** The reference reading of the allow-list rule, stated without the helper functions. */
  lemma AllowedFileIff(filename: string)
    ensures AllowedFile(filename) <==>
      exists k :: 0 <= k < |filename| && filename[k] == '.' && '.' !in filename[k + 1..]
                  && Lower(filename[k + 1..]) in AllowedExtensions
  {
  }

  /** The posted `file` part; its name is the client-supplied filename. */
  datatype FilePart = FilePart(filename: string)

  /** A multipart upload: the `file` part if there is one, and the `conversation_id` form field. */
  datatype UploadRequest = UploadRequest(file: Option<FilePart>, conversationId: Option<string>)

  datatype UploadError = NoFileProvided | NoFileSelected | InvalidFileType

  /** The JSON reply: the stored path and name, or the kind of rejection with its error text. */
  datatype UploadReply = Uploaded(filePath: string, filename: string) | Rejected(error: UploadError, message: string)

  /** The error text each rejection carries in the JSON reply. */
  function ErrorText(e: UploadError): string {
    match e
    case NoFileProvided => "No file provided"
    case NoFileSelected => "No file selected"
    case InvalidFileType => "Invalid file type"
  }

  /** A rejection carrying the error text of its kind. */
  function Reject(e: UploadError): UploadReply {
    Rejected(e, ErrorText(e))
  }

  /** `{user_id}_{timestamp}_{sanitised name}`: the owner's id in decimal and '_' first, the
      sanitised name last. */
  function StoredName(user: UserId, stamp: string, sanitised: string): (r: string)
    ensures |r| == |Decimal(user)| + |stamp| + |sanitised| + 2
    ensures r[..|Decimal(user)| + 1] == Decimal(user) + "_"
    ensures r[|Decimal(user)| + 1..|Decimal(user)| + 1 + |stamp|] == stamp
    ensures r[|Decimal(user)| + 1 + |stamp|] == '_'
    ensures r[|r| - |sanitised|..] == sanitised
  {
    Decimal(user) + "_" + stamp + "_" + sanitised
  }

  /** Files of different users never get the same stored name, whatever the timestamps and names:
      the part before the first '_' is the owner's id. */
  lemma StoredNamesOfDistinctUsersDiffer(u1: UserId, s1: string, n1: string, u2: UserId, s2: string, n2: string)
    requires u1 != u2
    ensures StoredName(u1, s1, n1) != StoredName(u2, s2, n2)
  {
    var a, b := Decimal(u1), Decimal(u2);
    var x, y := StoredName(u1, s1, n1), StoredName(u2, s2, n2);
    DecimalInjective(u1, u2);
    if |a| < |b| {
      assert x[|a|] == '_' && IsDigit(y[|a|]);
    } else if |b| < |a| {
      assert y[|b|] == '_' && IsDigit(x[|b|]);
    } else {
      var i :| 0 <= i < |a| && a[i] != b[i];
      assert x[i] == a[i] && y[i] == b[i];
    }
  }

  /** `upload_file` for `user`. `sanitise` stands for `secure_filename`, `stamp` for the formatted
      clock reading (`%Y%m%d_%H%M%S`), `at` for the row's `uploaded_at`. */
  function Upload(db: Db, user: UserId, req: UploadRequest, sanitise: string -> string, stamp: string, at: int): (r: (Db, UploadReply))
    // the three checks, in order, each with its own error
    ensures r.1 == Rejected(NoFileProvided, "No file provided") <==> req.file.None?
    ensures r.1 == Rejected(NoFileSelected, "No file selected") <==> req.file.Some? && req.file.value.filename == ""
    ensures r.1 == Rejected(InvalidFileType, "Invalid file type") <==>
      req.file.Some? && req.file.value.filename != "" && !AllowedFile(req.file.value.filename)
    ensures r.1.Uploaded? <==> req.file.Some? && AllowedFile(req.file.value.filename)
    // a rejected file leaves no row behind
    ensures r.1.Rejected? ==> r.0 == db
    ensures r.0.conversations == db.conversations && r.0.messages == db.messages
    ensures r.0.nextConversationId == db.nextConversationId && r.0.nextMessageId == db.nextMessageId
    // an accepted file adds exactly one row, describing it
    ensures r.1.Uploaded? ==>
      var name := req.file.value.filename;
      && |r.0.files| == |db.files| + 1 && r.0.files[..|db.files|] == db.files
      && var row := r.0.files[|db.files|];
      && row.owner == user
      && row.conversationId == req.conversationId
      && row.filename == name
      && row.fileType == Lower(Extension(name).value)
      && row.fileType in AllowedExtensions
      && r.1.filename == StoredName(user, stamp, sanitise(name))
      && r.1.filePath == UploadFolder + "/" + r.1.filename
      && row.filePath == r.1.filePath
    ensures Valid(db) ==> Valid(r.0)
  {
    if req.file.None? then (db, Reject(NoFileProvided))
    else
      var name := req.file.value.filename;
      if name == "" then (db, Reject(NoFileSelected))
      else if !AllowedFile(name) then (db, Reject(InvalidFileType))
      else
        var stored := StoredName(user, stamp, sanitise(name));
        var path := UploadFolder + "/" + stored;
        (AddFile(db, user, req.conversationId, name, path, Lower(Extension(name).value), at), Uploaded(path, stored))
  }

  /** Case is ignored: an upper-case allowed extension is accepted. */
  lemma AllowedFileIgnoresCase()
    ensures AllowedFile("REPORT.PDF")
  {
    assert Extension("REPORT.PDF") == Some("PDF");
    assert Lower("PDF") == "pdf";
  }

  /** A name without a '.' and a disallowed extension are both refused. */
  lemma AllowedFileRejects()
    ensures !AllowedFile("report")
    ensures !AllowedFile("report.exe")
  {
    assert Extension("report.exe") == Some("exe");
    assert Lower("exe") == "exe";
  }

  /** Only the text after the last '.' counts. */
  lemma AllowedFileUsesLastDot()
    ensures AllowedFile("archive.tar.docx")
    ensures !AllowedFile("notes.txt.exe")
  {
    assert Extension("notes.txt.exe") == Some("exe");
    assert Lower("exe") == "exe";
    assert Extension("archive.tar.docx") == Some("docx");
    assert Lower("docx") == "docx";
  }
}
