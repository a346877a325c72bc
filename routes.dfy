/**
 * The package's Flask routes: `index` renders the form or the outcome of a
 * submission, and `export` decides what is sent back from a request's
 * output directory. Rendering, the zip writer and `send_file` are not
 * modelled; a page is the template's arguments, and an export is the file
 * sent with, for an archive, the entries written into it.
 */
module Routes {
  import opened Wrappers
  import opened Python
  import opened FormSpec
  import opened Submission
  import opened Package

  /** The arguments `index.html` is rendered with. */
  datatype Page =
    | FormPage(webform: WebformSpec)
    | ResultPage(stderr: string, stdout: string, filesLoc: Option<string>, webform: WebformSpec)
    | ErrorPage(stderr: string, webform: WebformSpec)

  const ERROR_PREFIX: string := "An unexpected error occurred:\n\n"

  /** The error text shown: the exception's text only when all errors are printed. */
  function ErrorMessage(text: string, printAllErrors: bool): (msg: string)
    ensures ERROR_PREFIX <= msg
    ensures printAllErrors ==> msg[|ERROR_PREFIX|..] == text
    ensures !printAllErrors ==> msg == ERROR_PREFIX
  {
    var msg := if printAllErrors then ERROR_PREFIX + text else ERROR_PREFIX;
    assert printAllErrors ==> msg[|ERROR_PREFIX|..] == text;
    msg
  }

  /** The page for a submission's outcome. */
  function Respond(webform: WebformSpec, outcome: Result<Option<string>, string>, printAllErrors: bool): (p: Page)
    ensures outcome.Ok? <==> p.ResultPage?
    ensures p.ResultPage? ==> p.stderr == "" && p.stdout == "" && p.filesLoc == outcome.value
    ensures p.ErrorPage? ==> p.stderr == ErrorMessage(outcome.error, printAllErrors)
    ensures p.webform == webform
  {
    match outcome
    case Ok(filesLoc) => ResultPage("", "", filesLoc, webform)
    case Err(text) => ErrorPage(ErrorMessage(text, printAllErrors), webform)
  }

  /** A submission's outcome with its exception turned into text. */
  function AsText(r: Result<Option<string>, Failure>): Result<Option<string>, string>
  {
    match r
    case Ok(v) => Ok(v)
    case Err(f) => Err(FailureText(f))
  }

  /** `index`: a GET renders the form; a POST hands the submission over and renders its outcome. */
  method Index(app: ArgparseToWeb, isGet: bool, req: Request, now: string, tempRoot: string,
               existingDirs: set<string>, upload: Uploader,
               pythonApi: Kwargs -> Result<seq<string>, string>)
    returns (page: Page)
    requires app.Valid()
    ensures isGet ==> page == FormPage(app.webform)
    ensures !isGet ==> page == Respond(app.webform,
      AsText(SubmissionOutcome(app.fields, app.checkboxOptions, app.sendFilesParam, req, now, tempRoot,
                               existingDirs, upload, pythonApi)),
      app.printAllErrors)
  {
    if isGet {
      return FormPage(app.webform);
    }
    var _, outcome := app.HandleSubmission(req, now, tempRoot, existingDirs, upload, pythonApi);
    page := Respond(app.webform, AsText(outcome), app.printAllErrors);
  }

  // ---------------------------------------------------------------------------
  // Export

  /** `zipfile.write(filename=path, arcname=file)`. */
  datatype ZipEntry = ZipEntry(path: string, arcname: string)

  /** What `export` sends: nothing, the single output file, or a zip of all of them. */
  datatype Download =
    | NoDownload
    | SingleFile(path: string, name: string)
    | Archive(path: string, name: string, entries: seq<ZipEntry>)

  const ARCHIVE_NAME: string := "results.zip"

  /** The directory `export` reads: `output` under the request's directory. */
  function FilesDir(filesLoc: string): string
  {
    PathJoin(filesLoc, "output")
  }

  /** One entry per listed file, taken from the directory under its own name. */
  function Entries(filesDir: string, fileNames: seq<string>): (r: seq<ZipEntry>)
    ensures |r| == |fileNames|
    ensures forall i :: 0 <= i < |r| ==> r[i] == ZipEntry(PathJoin(filesDir, fileNames[i]), fileNames[i])
  {
    seq(|fileNames|, i requires 0 <= i < |fileNames| => ZipEntry(PathJoin(filesDir, fileNames[i]), fileNames[i]))
  }

  /** The download for a listing of the output directory. */
  function DownloadOf(filesLoc: string, fileNames: seq<string>): (e: Download)
    ensures e.NoDownload? <==> fileNames == []
    ensures e.SingleFile? <==> |fileNames| == 1
    ensures e.SingleFile? ==> e.name == fileNames[0] && e.path == PathJoin(FilesDir(filesLoc), fileNames[0])
    ensures e.Archive? ==> e.name == ARCHIVE_NAME && e.path == PathJoin(FilesDir(filesLoc), ARCHIVE_NAME)
    ensures e.Archive? ==> e.entries == Entries(FilesDir(filesLoc), fileNames)
  {
    var filesDir := FilesDir(filesLoc);
    if fileNames == [] then NoDownload
    else if |fileNames| == 1 then SingleFile(PathJoin(filesDir, fileNames[0]), fileNames[0])
    else Archive(PathJoin(filesDir, ARCHIVE_NAME), ARCHIVE_NAME, Entries(filesDir, fileNames))
  }

  /** `export`, given the listing `os.listdir` returns; the loop writes one zip entry per file. */
  method Export(filesLoc: string, fileNames: seq<string>) returns (e: Download)
    ensures e == DownloadOf(filesLoc, fileNames)
  {
    var filesDir := FilesDir(filesLoc);
    if fileNames == [] {
      return NoDownload;
    }
    if |fileNames| == 1 {
      var fileName := fileNames[0];
      return SingleFile(PathJoin(filesDir, fileName), fileName);
    }
    var entries: seq<ZipEntry> := [];
    for i := 0 to |fileNames|
      invariant entries == Entries(filesDir, fileNames[..i])
    {
      var file := fileNames[i];
      entries := entries + [ZipEntry(PathJoin(filesDir, file), file)];
    }
    assert fileNames[..|fileNames|] == fileNames;
    e := Archive(PathJoin(filesDir, ARCHIVE_NAME), ARCHIVE_NAME, entries);
  }

  /** The arcnames of an archive's entries. */
  function ArcNames(entries: seq<ZipEntry>): (r: seq<string>)
    ensures |r| == |entries|
  {
    seq(|entries|, i requires 0 <= i < |entries| => entries[i].arcname)
  }

  /** An archive holds every listed file, in listing order, under its own name. */
  lemma ArchiveHoldsListing(filesLoc: string, fileNames: seq<string>)
    requires |fileNames| >= 2
    ensures DownloadOf(filesLoc, fileNames).Archive?
    ensures ArcNames(DownloadOf(filesLoc, fileNames).entries) == fileNames
  {
    var entries := DownloadOf(filesLoc, fileNames).entries;
    assert forall i :: 0 <= i < |fileNames| ==> ArcNames(entries)[i] == fileNames[i];
  }

  /** Joining one directory with names that are not absolute paths is injective. */
  lemma PathJoinInjective(dir: string, a: string, b: string)
    requires (a == "" || a[0] != '/') && (b == "" || b[0] != '/')
    requires PathJoin(dir, a) == PathJoin(dir, b)
    ensures a == b
  {
    var sep: string := if dir == "" || dir[|dir| - 1] == '/' then "" else "/";
    assert PathJoin(dir, a) == dir + sep + a;
    assert PathJoin(dir, b) == dir + sep + b;
    assert a == PathJoin(dir, a)[|dir + sep|..];
  }

  /**
   * The archive is written into the directory it packs; it is one of its
   * own entries exactly when the listing already holds a `results.zip`.
   */
  lemma ArchiveAmongEntries(filesLoc: string, fileNames: seq<string>)
    requires |fileNames| >= 2
    requires forall i :: 0 <= i < |fileNames| ==> fileNames[i] == "" || fileNames[i][0] != '/'
    ensures var e := DownloadOf(filesLoc, fileNames);
      (exists i :: 0 <= i < |e.entries| && e.entries[i].path == e.path) <==> ARCHIVE_NAME in fileNames
  {
    var e := DownloadOf(filesLoc, fileNames);
    var dir := FilesDir(filesLoc);
    if exists i :: 0 <= i < |e.entries| && e.entries[i].path == e.path {
      var i :| 0 <= i < |e.entries| && e.entries[i].path == e.path;
      PathJoinInjective(dir, fileNames[i], ARCHIVE_NAME);
    }
    if ARCHIVE_NAME in fileNames {
      var i :| 0 <= i < |fileNames| && fileNames[i] == ARCHIVE_NAME;
      assert e.entries[i].path == e.path;
    }
  }
}
