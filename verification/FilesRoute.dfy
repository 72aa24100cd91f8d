/**
 * `/api/files`: the MIME filter applied while the upload is received, the
 * stored file name, the upload handler's guards, the file type derived from
 * the original name's extension, the sentinel stored when extraction fails,
 * and deletion.
 */
module FilesRoute {
  import opened Wrappers
  import opened Strings
  import opened Store
  import FileProcessor

  // ---------------------------------------------------------------------------
  // The upload filter
  // ---------------------------------------------------------------------------

  /** The MIME types the upload accepts: PDF, the two Excel and the two Word formats. */
  const AllowedMimeTypes: seq<string> := [
    "application/pdf",
    "application/vnd.ms-excel",
    "application/vnd.openxmlformats-officedocument.spreadsheetml.sheet",
    "application/msword",
    "application/vnd.openxmlformats-officedocument.wordprocessingml.document"
  ]

  const InvalidTypeError := "Invalid file type. Allowed: PDF, Excel, Word"

  /** `fileFilter`: accepts the file, or fails the request with an error. */
  function FileFilter(mimeType: string): (r: Result<bool>)
    ensures r.Ok? <==> mimeType in AllowedMimeTypes
    ensures r.Ok? ==> r.value
    ensures r.Err? ==> r.message == InvalidTypeError
  {
    if mimeType in AllowedMimeTypes then Ok(true) else Err(InvalidTypeError)
  }

  // ---------------------------------------------------------------------------
  // Extensions
  // ---------------------------------------------------------------------------

  /** The position of the last `c` in `s`, or -1. */
  function LastIndexOf(s: string, c: char): (k: int)
    ensures -1 <= k < |s|
    ensures k >= 0 ==> s[k] == c
    ensures forall j | k < j < |s| :: s[j] != c
  {
    if s == [] then -1
    else if s[|s| - 1] == c then |s| - 1
    else LastIndexOf(s[..|s| - 1], c)
  }

  /** `s` without its trailing `c`s. */
  function DropTrailing(s: string, c: char): (r: string)
    ensures r <= s
    ensures r == [] || r[|r| - 1] != c
  {
    if s != [] && s[|s| - 1] == c then DropTrailing(s[..|s| - 1], c) else s
  }

  /** The last component of a POSIX path, ignoring trailing slashes. */
  function BaseName(path: string): (b: string)
    ensures '/' !in b
  {
    var t := DropTrailing(path, '/');
    t[LastIndexOf(t, '/') + 1..]
  }

  /** Only `c`s are dropped. */
  lemma {:induction false} DropTrailingOnly(s: string, c: char)
    ensures forall j | |DropTrailing(s, c)| <= j < |s| :: s[j] == c
    decreases |s|
  {
    if s != [] && s[|s| - 1] == c {
      DropTrailingOnly(s[..|s| - 1], c);
    }
  }

  /**
   * The base name is the last component: once trailing slashes are dropped,
   * it ends the path and is preceded by a slash or by nothing.
   */
  lemma BaseNameIsLastComponent(path: string)
    ensures var t := DropTrailing(path, '/'); var b := BaseName(path);
      && (forall j | |t| <= j < |path| :: path[j] == '/')
      && |b| <= |t| && t[|t| - |b|..] == b && (|b| == |t| || t[|t| - |b| - 1] == '/')
  {
    DropTrailingOnly(path, '/');
  }

  /**
   * `path.extname`: from the last dot of the last component to its end; empty
   * when the component has no dot, starts with its only leading dot, or is `..`.
   */
  function Extname(path: string): string
  {
    var b := BaseName(path);
    var d := LastIndexOf(b, '.');
    if d <= 0 || b == ".." then "" else b[d..]
  }

  /** An extension is empty, or a dot followed by no further dot, at the end of the base name. */
  lemma ExtnameShape(path: string)
    ensures var e := Extname(path);
      e == "" || (e[0] == '.' && '.' !in e[1..] && |e| < |BaseName(path)| && BaseName(path)[|BaseName(path)| - |e|..] == e)
  {
    var b := BaseName(path);
    var d := LastIndexOf(b, '.');
    if d > 0 && b != ".." {
      var e := b[d..];
      assert forall j | 0 <= j < |e| - 1 :: e[1..][j] == b[d + 1 + j];
    }
  }

  /** Dotfiles and names without a dot have no extension. */
  lemma ExtnameEmpty(name: string)
    requires '/' !in name
    requires '.' !in name || (|name| > 0 && name[0] == '.' && '.' !in name[1..])
    ensures Extname(name) == ""
  {
    assert DropTrailing(name, '/') == name;
    var d := LastIndexOf(name, '.');
    assert LastIndexOf(name, '/') == -1;
    assert BaseName(name) == name;
  }

  /** A name with a dot after its first character has the extension that starts at its last dot. */
  lemma ExtnameFound(name: string)
    requires '/' !in name && name != ".."
    requires LastIndexOf(name, '.') > 0
    ensures Extname(name) == name[LastIndexOf(name, '.')..]
  {
    assert DropTrailing(name, '/') == name;
    assert LastIndexOf(name, '/') == -1;
    assert BaseName(name) == name;
  }

  /** The last dot of a dot-free stem, a dot and a dot-free suffix is the one between them. */
  lemma LastDotAfterStem(stem: string, suffix: string)
    requires '.' !in suffix
    ensures LastIndexOf(stem + "." + suffix, '.') == |stem|
  {
    var name := stem + "." + suffix;
    assert name[|stem|] == '.';
    assert name[|stem| + 1..] == suffix;
  }

  /** Such a name is a single component other than `..`. */
  lemma PlainComponent(stem: string, suffix: string)
    requires stem != [] && '/' !in stem && '.' !in stem && '/' !in suffix
    ensures '/' !in stem + "." + suffix && stem + "." + suffix != ".."
  {
    assert (stem + "." + suffix)[0] == stem[0];
  }

  /** A stem without dots followed by a dot and a dot-free suffix has that dot and suffix as its extension. */
  lemma ExtnameOfStemAndSuffix(stem: string, suffix: string)
    requires stem != [] && '/' !in stem && '.' !in stem
    requires '/' !in suffix && '.' !in suffix
    ensures Extname(stem + "." + suffix) == "." + suffix
  {
    var name := stem + "." + suffix;
    assert name[|stem|..] == "." + suffix;
    LastDotAfterStem(stem, suffix);
    PlainComponent(stem, suffix);
    ExtnameFound(name);
  }

  /** `file_type`: the lowercased extension of the original name. */
  function FileType(originalName: string): (t: string)
    ensures |t| == |Extname(originalName)|
  {
    ToLower(Extname(originalName))
  }

  /** `Report.PDF` and its like: the recorded type is the dot and the lower-cased suffix. */
  lemma FileTypeOfStemAndSuffix(stem: string, suffix: string)
    requires stem != [] && '/' !in stem && '.' !in stem
    requires '/' !in suffix && '.' !in suffix
    ensures FileType(stem + "." + suffix) == "." + ToLower(suffix)
  {
    ExtnameOfStemAndSuffix(stem, suffix);
    assert ToLower("." + suffix) == "." + ToLower(suffix);
  }

  /** The file type picks the same extractor as the extension it comes from, whatever its case. */
  lemma FileTypeExtractor(originalName: string)
    ensures FileProcessor.ExtractorFor(FileType(originalName)) == FileProcessor.ExtractorFor(Extname(originalName))
  {
    FileProcessor.ExtractorIgnoresCase(Extname(originalName));
  }

  /** The name `diskStorage` gives the upload: a fresh uuid and the original extension. */
  function StoredFilename(uuid: string, originalName: string): string
  {
    uuid + Extname(originalName)
  }

  /** The stored name is the uuid followed by the original extension, which lowercased is the recorded file type. */
  lemma StoredNameMatchesFileType(uuid: string, originalName: string)
    ensures var r := StoredFilename(uuid, originalName);
      |r| == |uuid| + |Extname(originalName)| && r[..|uuid|] == uuid && ToLower(r[|uuid|..]) == FileType(originalName)
  {
    var r := StoredFilename(uuid, originalName);
    assert r[..|uuid|] == uuid && r[|uuid|..] == Extname(originalName);
  }

  // ---------------------------------------------------------------------------
  // Upload
  // ---------------------------------------------------------------------------

  /** The file as multer receives it. */
  datatype UploadedFile = UploadedFile(originalName: string, mimeType: string, size: nat)

  datatype FileBody =
    | Stored(row: FileRow)
    | Deleted(message: string, id: string)
    | Failure(error: string)

  datatype FileResponse = FileResponse(status: nat, body: FileBody)

  /** The upload directory; the absolute prefix the server resolves it under is left out. */
  const UploadDir := "data/captainclaw/uploads/"

  const ExtractionFailed := "[Text extraction failed - file may be corrupted]"

  /** The driver's message when the primary key is taken. */
  const DuplicateIdError := "SQLITE_CONSTRAINT: UNIQUE constraint failed: files.id"

  /** `extracted_text`: the extracted text, or the sentinel whatever the failure. */
  function StoredText(fileType: string, parsers: FileProcessor.Parsers): string
  {
    var r := FileProcessor.ExtractText(fileType, parsers);
    if r.Ok? then r.value else ExtractionFailed
  }

  /** The handler's `try`/`catch` around `extractText`. */
  method ExtractOrSentinel(fileType: string, parsers: FileProcessor.Parsers) returns (extractedText: string)
    ensures extractedText == StoredText(fileType, parsers)
  {
    extractedText := "";
    var extraction := FileProcessor.ExtractText(fileType, parsers);
    if extraction.Ok? {
      extractedText := extraction.value;
    } else {
      extractedText := ExtractionFailed;
    }
  }

  /** An extension with no extractor stores the sentinel, whatever the parsers would give. */
  lemma UnsupportedTypeStoresSentinel(originalName: string, parsers: FileProcessor.Parsers)
    requires FileProcessor.ExtractorFor(Extname(originalName)) == None
    ensures StoredText(FileType(originalName), parsers) == ExtractionFailed
  {
    FileTypeExtractor(originalName);
  }

  /** The filter looks at the MIME type only: a PDF MIME type on a name with no extension passes it and stores the sentinel. */
  lemma PermittedMimeUnsupportedName(parsers: FileProcessor.Parsers)
    ensures FileFilter("application/pdf").Ok?
    ensures StoredText(FileType("notes"), parsers) == ExtractionFailed
  {
    assert "application/pdf" == AllowedMimeTypes[0];
    ExtnameEmpty("notes");
    assert FileType("notes") == "";
  }

  /** Where multer writes the upload. */
  function UploadPath(uuid: string, originalName: string): string
  {
    UploadDir + StoredFilename(uuid, originalName)
  }

  /** The row the upload inserts: the original name, the stored path, the derived type and the stored text. */
  function NewFileRow(fileId: string, projectId: string, upload: UploadedFile, path: string,
                      parsers: FileProcessor.Parsers, now: string): FileRow
  {
    var fileType := FileType(upload.originalName);
    FileRow(fileId, projectId, upload.originalName, path, fileType, upload.size, StoredText(fileType, parsers), now)
  }

  predicate HasFile(files: seq<FileRow>, id: string)
  {
    exists k | 0 <= k < |files| :: files[k].id == id
  }

  /** What an upload request answers and leaves in the `files` table and on disk. */
  datatype UploadOutcome = UploadOutcome(resp: FileResponse, files: seq<FileRow>, disk: set<string>)

  /**
   * `POST /upload/:project_id` with multer in front: the filter and the write
   * to disk happen while the request is received, before the handler runs; a
   * rejected type reaches the server's error handler, which answers 500.
   */
  function UploadEffect(projects: map<string, ProjectRow>, files: seq<FileRow>, disk: set<string>,
                        projectId: string, file: Option<UploadedFile>, uuid: string, fileId: string,
                        now: string, parsers: FileProcessor.Parsers): UploadOutcome
  {
    if file.None? then UploadOutcome(FileResponse(400, Failure("No file provided")), files, disk)
    else if FileFilter(file.value.mimeType).Err? then
      UploadOutcome(FileResponse(500, Failure(InvalidTypeError)), files, disk)
    else
      var path := UploadPath(uuid, file.value.originalName);
      HandlerEffect(projects, files, disk + {path}, projectId, file.value, path, fileId, now, parsers)
  }

  /** What the route handler does once the upload sits at `path` on `disk`. */
  function HandlerEffect(projects: map<string, ProjectRow>, files: seq<FileRow>, disk: set<string>,
                         projectId: string, upload: UploadedFile, path: string, fileId: string,
                         now: string, parsers: FileProcessor.Parsers): UploadOutcome
  {
    if projectId !in projects then
      UploadOutcome(FileResponse(404, Failure("Project not found")), files, disk - {path})
    else if HasFile(files, fileId) then
      UploadOutcome(FileResponse(500, Failure(DuplicateIdError)), files, disk - {path})
    else
      var row := NewFileRow(fileId, projectId, upload, path, parsers, now);
      UploadOutcome(FileResponse(201, Stored(row)), files + [row], disk)
  }

  method Upload(db: Database, projectId: string, file: Option<UploadedFile>, uuid: string, fileId: string,
                now: string, parsers: FileProcessor.Parsers) returns (resp: FileResponse)
    modifies db
    ensures db.projects == old(db.projects) && db.conversations == old(db.conversations)
    ensures db.messages == old(db.messages)
    ensures UploadOutcome(resp, db.files, db.disk) ==
      UploadEffect(old(db.projects), old(db.files), old(db.disk), projectId, file, uuid, fileId, now, parsers)
  {
    if file.None? {
      return FileResponse(400, Failure("No file provided"));
    }
    var upload := file.value;
    var accepted := FileFilter(upload.mimeType);
    if accepted.Err? {
      return FileResponse(500, Failure(accepted.message));
    }
    var filePath := UploadPath(uuid, upload.originalName);
    db.disk := db.disk + {filePath};
    resp := Handler(db, projectId, upload, filePath, fileId, now, parsers);
  }

  /** The route handler, run after the upload was written to `path`. */
  method Handler(db: Database, projectId: string, upload: UploadedFile, path: string, fileId: string,
                 now: string, parsers: FileProcessor.Parsers) returns (resp: FileResponse)
    modifies db
    ensures db.projects == old(db.projects) && db.conversations == old(db.conversations)
    ensures db.messages == old(db.messages)
    ensures UploadOutcome(resp, db.files, db.disk) ==
      HandlerEffect(old(db.projects), old(db.files), old(db.disk), projectId, upload, path, fileId, now, parsers)
  {
    if projectId !in db.projects {
      db.disk := db.disk - {path};
      return FileResponse(404, Failure("Project not found"));
    }
    var fileType := FileType(upload.originalName);
    var extractedText := ExtractOrSentinel(fileType, parsers);
    if HasFile(db.files, fileId) {
      db.disk := db.disk - {path};
      return FileResponse(500, Failure(DuplicateIdError));
    }
    var row := FileRow(fileId, projectId, upload.originalName, path, fileType, upload.size, extractedText, now);
    assert row == NewFileRow(fileId, projectId, upload, path, parsers, now);
    db.files := db.files + [row];
    resp := FileResponse(201, Stored(row));
  }

  /** No file gives 400 and a rejected type 500, both before anything is written. */
  lemma UploadGuards(projects: map<string, ProjectRow>, files: seq<FileRow>, disk: set<string>,
                     projectId: string, file: Option<UploadedFile>, ids: (string, string), now: string,
                     parsers: FileProcessor.Parsers)
    requires file.None? || file.value.mimeType !in AllowedMimeTypes
    ensures var out := UploadEffect(projects, files, disk, projectId, file, ids.0, ids.1, now, parsers);
      && out.resp.status == (if file.None? then 400 else 500)
      && out.files == files && out.disk == disk
  {
  }

  /** Every failure after the upload was written removes it again and inserts no row. */
  lemma UploadFailureCleansUp(projects: map<string, ProjectRow>, files: seq<FileRow>, disk: set<string>,
                              projectId: string, upload: UploadedFile, ids: (string, string), now: string,
                              parsers: FileProcessor.Parsers)
    requires upload.mimeType in AllowedMimeTypes
    requires projectId !in projects || HasFile(files, ids.1)
    ensures var out := UploadEffect(projects, files, disk, projectId, Some(upload), ids.0, ids.1, now, parsers);
      && out.resp.status in {404, 500}
      && out.files == files
      && out.disk == disk - {UploadPath(ids.0, upload.originalName)}
  {
    var path := UploadPath(ids.0, upload.originalName);
    assert (disk + {path}) - {path} == disk - {path};
  }

  /** Success keeps the upload on disk and appends exactly one row, for the project, pointing at it. */
  lemma UploadSuccess(projects: map<string, ProjectRow>, files: seq<FileRow>, disk: set<string>,
                      projectId: string, upload: UploadedFile, ids: (string, string), now: string,
                      parsers: FileProcessor.Parsers)
    requires upload.mimeType in AllowedMimeTypes
    requires projectId in projects && !HasFile(files, ids.1)
    ensures var out := UploadEffect(projects, files, disk, projectId, Some(upload), ids.0, ids.1, now, parsers);
      var path := UploadPath(ids.0, upload.originalName);
      && out.resp.status == 201
      && |out.files| == |files| + 1 && out.files[..|files|] == files
      && out.files[|files|] == out.resp.body.row
      && out.resp.body.row.id == ids.1 && out.resp.body.row.projectId == projectId
      && out.resp.body.row.filePath == path
      && out.disk == disk + {path}
  {
    var out := UploadEffect(projects, files, disk, projectId, Some(upload), ids.0, ids.1, now, parsers);
    assert out.files[..|files|] == files;
  }

  /** An unknown project gives 404 and takes the written upload off the disk. */
  lemma UploadUnknownProject(projects: map<string, ProjectRow>, files: seq<FileRow>, disk: set<string>,
                             projectId: string, upload: UploadedFile, ids: (string, string), now: string,
                             parsers: FileProcessor.Parsers)
    requires upload.mimeType in AllowedMimeTypes && projectId !in projects
    ensures UploadEffect(projects, files, disk, projectId, Some(upload), ids.0, ids.1, now, parsers).resp ==
      FileResponse(404, Failure("Project not found"))
  {
  }

  /** A stored row records the lowercased extension, and the sentinel whenever extraction failed. */
  lemma UploadStoresTypeAndText(projects: map<string, ProjectRow>, files: seq<FileRow>, disk: set<string>,
                                projectId: string, upload: UploadedFile, ids: (string, string), now: string,
                                parsers: FileProcessor.Parsers)
    requires UploadEffect(projects, files, disk, projectId, Some(upload), ids.0, ids.1, now, parsers).resp.body.Stored?
    ensures var row := UploadEffect(projects, files, disk, projectId, Some(upload), ids.0, ids.1, now, parsers).resp.body.row;
      && row.fileType == ToLower(Extname(upload.originalName))
      && row.filename == upload.originalName
      && (FileProcessor.ExtractText(row.fileType, parsers).Err? ==> row.extractedText == ExtractionFailed)
  {
  }

  // ---------------------------------------------------------------------------
  // Delete
  // ---------------------------------------------------------------------------

  /** `SELECT * FROM files WHERE id = ?`: the first row with the id. */
  function FindFile(files: seq<FileRow>, id: string): (r: Option<FileRow>)
    ensures r.None? <==> !HasFile(files, id)
    ensures r.Some? ==> r.value in files && r.value.id == id
  {
    if files == [] then None
    else if files[0].id == id then Some(files[0])
    else
      var rest := FindFile(files[1..], id);
      assert HasFile(files, id) ==> HasFile(files[1..], id) by {
        if HasFile(files, id) {
          var k :| 0 <= k < |files| && files[k].id == id;
          assert files[1..][k - 1] == files[k];
        }
      }
      assert rest.Some? ==> rest.value == files[1..][IndexIn(files[1..], rest.value)];
      rest
  }

  /** A position of a member. */
  function IndexIn(files: seq<FileRow>, r: FileRow): (k: nat)
    requires r in files
    ensures k < |files| && files[k] == r
  {
    if files[0] == r then 0 else 1 + IndexIn(files[1..], r)
  }

  /** `DELETE FROM files WHERE id = ?`. */
  function RemoveFile(files: seq<FileRow>, id: string): (r: seq<FileRow>)
    ensures forall x :: x in r <==> x in files && x.id != id
    ensures |r| <= |files|
  {
    if files == [] then []
    else (if files[0].id == id then [] else [files[0]]) + RemoveFile(files[1..], id)
  }

  /** Removing rows keeps the others in their order. */
  lemma {:induction false} RemoveFileAppend(a: seq<FileRow>, b: seq<FileRow>, id: string)
    ensures RemoveFile(a + b, id) == RemoveFile(a, id) + RemoveFile(b, id)
    decreases |a|
  {
    if a == [] {
      assert a + b == b;
    } else {
      assert (a + b)[0] == a[0];
      assert (a + b)[1..] == a[1..] + b;
      RemoveFileAppend(a[1..], b, id);
    }
  }

  /** `DELETE /:id`: 404 for an unknown id; otherwise the disk file goes if present, then the rows. */
  method Delete(db: Database, id: string) returns (resp: FileResponse)
    modifies db
    ensures db.projects == old(db.projects) && db.conversations == old(db.conversations)
    ensures db.messages == old(db.messages)
    ensures !HasFile(old(db.files), id) ==>
      resp == FileResponse(404, Failure("File not found")) && db.files == old(db.files) && db.disk == old(db.disk)
    ensures HasFile(old(db.files), id) ==>
      && resp == FileResponse(200, Deleted("File deleted", id))
      && db.files == RemoveFile(old(db.files), id)
      && db.disk == old(db.disk) - {FindFile(old(db.files), id).value.filePath}
  {
    var file := FindFile(db.files, id);
    if file.None? {
      return FileResponse(404, Failure("File not found"));
    }
    if file.value.filePath in db.disk {
      db.disk := db.disk - {file.value.filePath};
    }
    db.files := RemoveFile(db.files, id);
    resp := FileResponse(200, Deleted("File deleted", id));
  }
}
