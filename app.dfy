/**
 * The stand-alone application app.py: its own copy of the builder, the
 * configuration it builds its form with, the module-level state derived
 * from the form, and its `index` and `export` routes. Its translation of a
 * submission differs from the package's: uploads without a file name are
 * stored too, the destination is inserted before the filters, and the
 * request's directory is always reported.
 */
module App {
  import opened Wrappers
  import opened Python
  import opened Argparse
  import opened FormSpec
  import opened Submission
  import opened Package
  import Builder
  import Routes

  /** `argeparse_to_webform`, the same builder as the package's `create_webform_spec`. */
  method ArgeparseToWebform(parser: Parser, opts: Options) returns (r: Result<WebformSpec, BuildError>)
    ensures r == BuildSpec(parser, opts)
  {
    r := Builder.CreateWebformSpec(parser, opts);
  }

  const LABEL_OVERRIDES: map<string, string> := map[
    "xlsxfiles" := "Source files",
    "merge" := "Target files",
    "correct" := "Trusted files",
    "no_diverse" := "Exclude translations with duplicates",
    "diverse" := "Enumerate duplicates*",
    "add" := "Add languages",
    "ignore" := "Ignore languages",
    "carry" := "Carry over"]

  const HELP_OVERRIDES: map<string, string> := map[
    "xlsxfiles" := "One or more XLSForms. If no \"target files\" are provided, then a translation file will be "
      + "generated based on the contents of these forms. If \"target files\" are provided, then new versions "
      + "of those target files will be created, with translations from these files imported.",
    "merge" := "One or more XLSForms that receives the translations from provided \"source files\".",
    "correct" := "One or more file names of the provided \"source files\" to mark as \"trusted\". This is a way "
      + "to give some source files precedence over others. If an English  string of text has multiple "
      + "translations for the same language between forms that are marked trusted and forms not marked "
      + "trusted, the non-trusted ones will be ignored.",
    "no_diverse" := "If there are multiple translations for a single English string of text in a given "
      + "language, exclude all of them.",
    "diverse" := "Supply a language. Creates a worksheet that shows only strings with duplicate translations "
      + "for the language. *Can only use when not providing any \"target files\".",
    "add" := "Add one or more languages. The translation file will have an additional column for each "
      + "language. Or, the merged XLSForm will include columns for that language and have translations for "
      + "them if possible.",
    "ignore" := "One or more languages to ignore.",
    "carry" := "If translations are missing, carry over the same text from the source language. If this "
      + "option is not turned on, no translation will be supplied."]

  /** The options the application builds its form with. */
  const APP_OPTIONS: Options := Options(
    "XLSForm Borrow",
    "Generates translation summary files and merges translations between XLSForms.",
    ["xlsxfiles", "merge"],
    ["outfile", "outdir", "merge_all"],
    ["no_diverse", "carry", "correct", "add", "ignore", "diverse"],
    ["xlsxfiles", "merge"],
    [],
    HELP_OVERRIDES,
    LABEL_OVERRIDES)

  const SEND_FILES_OPTION: string := "outdir"
  const PRINT_ALL_ERRORS: bool := true

  /** The module-level state: the form, its fields, its checkboxes, and where output goes. */
  datatype AppState = AppState(
    webform: WebformSpec, fields: seq<Dict>, checkboxOptions: seq<string>,
    printAllErrors: bool, sendFilesParam: string)

  /** Loading app.py: the builder's exception propagates; otherwise the derived state. */
  method Load(parser: Parser) returns (r: Result<AppState, BuildError>)
    ensures r.Err? <==> BuildSpec(parser, APP_OPTIONS).Err?
    ensures r.Err? ==> r.error == BuildSpec(parser, APP_OPTIONS).error
    ensures r.Ok? ==> var st := r.value;
      && st.webform == BuildSpec(parser, APP_OPTIONS).value
      && st.fields == st.webform.fields + st.webform.advancedFields
      && AreFormFields(st.fields)
      && st.checkboxOptions == CheckboxOptions(st.fields)
      && st.printAllErrors
      && st.sendFilesParam == SEND_FILES_OPTION
  {
    var spec := ArgeparseToWebform(parser, APP_OPTIONS);
    if spec.Err? {
      return Err(spec.error);
    }
    var webform := spec.value;
    BuiltFieldsAreFormFields(parser, APP_OPTIONS);
    var fields := webform.fields + webform.advancedFields;
    var cliOptions := CliOptions(parser.actions);
    r := Ok(AppState(webform, fields, CheckboxOptions(fields), PRINT_ALL_ERRORS,
                     SendFilesParam(SEND_FILES_OPTION, cliOptions)));
  }

  /**
   * The path `upload_file` builds for an upload without a file name: the
   * input directory itself, with a trailing separator.
   */
  function NamelessPath(inputDir: string): (path: string)
    ensures inputDir != "" && inputDir[|inputDir| - 1] != '/' ==> path == inputDir + "/"
  {
    PathJoin(inputDir, "")
  }

  /**
   * The inner upload loop of app.py's `index`. An upload without a file name
   * makes `upload_file` call `os.remove` on the input directory, which
   * raises `IsADirectoryError`.
   */
  method StoreEveryFile(fileNames: seq<string>, upload: string -> string, inputDir: string)
    returns (r: Result<seq<string>, Failure>)
    ensures r.Err? <==> "" in fileNames
    ensures r.Err? ==> r.error == IsADirectory(NamelessPath(inputDir))
    ensures r.Ok? ==> r.value == StoredPaths(fileNames, upload, false)
  {
    var paths: seq<string> := [];
    for j := 0 to |fileNames|
      invariant paths == StoredPaths(fileNames[..j], upload, false)
      invariant "" !in fileNames[..j]
    {
      assert fileNames[..j + 1] == fileNames[..j] + [fileNames[j]];
      assert fileNames[..j + 1][..j] == fileNames[..j];
      if fileNames[j] == "" {
        return Err(IsADirectory(NamelessPath(inputDir)));
      }
      paths := paths + [upload(fileNames[j])];
    }
    assert fileNames[..|fileNames|] == fileNames;
    r := Ok(paths);
  }

  /** `upload_option_file_paths` in app.py: every upload stored, failing at the first one without a file name. */
  method CollectEveryUpload(fields: seq<Dict>, req: Request, upload: string -> string, inputDir: string)
    returns (r: Result<Kwargs, Failure>)
    requires AreFormFields(fields)
    ensures r.Err? <==> HasNamelessUpload(fields, req)
    ensures r.Err? ==> r.error == IsADirectory(NamelessPath(inputDir))
    ensures r.Ok? ==> r.value == Uploads(fields, req, upload, false)
  {
    var paths: Kwargs := map[];
    for i := 0 to |fields|
      invariant paths == UploadsUpTo(fields, req, upload, false, i)
      invariant !NamelessUploadBefore(fields, req, i)
    {
      UploadsUpToStep(fields, req, upload, false, i);
      NamelessUploadBeforeStep(fields, req, i);
      var fld := fields[i];
      if !IsFileField(fld) {
        continue;
      }
      var option := NameOfField(fld);
      var stored := StoreEveryFile(FileList(req, option), upload, inputDir);
      if stored.Err? {
        NamelessUploadBeforeAll(fields, req, i + 1);
        return Err(stored.error);
      }
      paths := paths[option := StrList(stored.value)];
    }
    NamelessUploadBeforeAll(fields, req, |fields|);
    assert FileFieldNamesUpTo(fields, |fields|) == FileFieldNames(fields);
    r := Ok(paths);
  }

  /** Some file field among the first `i` has an upload without a file name. */
  predicate NamelessUploadBefore(fields: seq<Dict>, req: Request, i: nat)
    requires AreFormFields(fields) && i <= |fields|
  {
    exists j :: 0 <= j < i && IsFileField(fields[j]) && "" in FileList(req, NameOfField(fields[j]))
  }

  lemma NamelessUploadBeforeStep(fields: seq<Dict>, req: Request, i: nat)
    requires AreFormFields(fields) && i < |fields|
    ensures NamelessUploadBefore(fields, req, i + 1) <==>
      NamelessUploadBefore(fields, req, i) || (IsFileField(fields[i]) && "" in FileList(req, NameOfField(fields[i])))
  {
    if NamelessUploadBefore(fields, req, i + 1) {
      var j :| 0 <= j < i + 1 && IsFileField(fields[j]) && "" in FileList(req, NameOfField(fields[j]));
      if j < i {
        assert NamelessUploadBefore(fields, req, i);
      }
    }
  }

  lemma NamelessUploadBeforeAll(fields: seq<Dict>, req: Request, i: nat)
    requires AreFormFields(fields) && i <= |fields|
    ensures NamelessUploadBefore(fields, req, i) ==> HasNamelessUpload(fields, req)
    ensures i == |fields| ==> (NamelessUploadBefore(fields, req, i) <==> HasNamelessUpload(fields, req))
  {
  }

  /**
   * The outcome of a submission in app.py: the request's directory once the
   * Python API returns, whatever it wrote. Uploads are stored into the
   * request's input directory, and one without a file name fails first.
   */
  function AppOutcome(st: AppState, req: Request, now: string, tempRoot: string, existingDirs: set<string>,
                      upload: Uploader, pythonApi: Kwargs -> Result<seq<string>, string>)
    : (r: Result<Option<string>, Failure>)
    requires AreFormFields(st.fields)
    ensures RequestDir(tempRoot, now) in existingDirs ==> r == Err(DirExists(RequestDir(tempRoot, now)))
    ensures RequestDir(tempRoot, now) !in existingDirs && HasNamelessUpload(st.fields, req) ==>
      r == Err(IsADirectory(NamelessPath(InputDir(tempRoot, now))))
    ensures RequestDir(tempRoot, now) !in existingDirs && !HasNamelessUpload(st.fields, req) ==>
      var store := StoreIn(upload, InputDir(tempRoot, now));
      var api := pythonApi(AppKwargs(st.fields, st.checkboxOptions, req, store, st.sendFilesParam, OutputDir(tempRoot, now)));
      && (api.Err? ==> r == Err(ApiFailure(api.error)))
      && (api.Ok? ==> r == Ok(Some(RequestDir(tempRoot, now))))
  {
    var dir := RequestDir(tempRoot, now);
    var inputDir := InputDir(tempRoot, now);
    if dir in existingDirs then Err(DirExists(dir))
    else if HasNamelessUpload(st.fields, req) then Err(IsADirectory(NamelessPath(inputDir)))
    else
      var store := StoreIn(upload, inputDir);
      match pythonApi(AppKwargs(st.fields, st.checkboxOptions, req, store, st.sendFilesParam, OutputDir(tempRoot, now)))
      case Err(text) => Err(ApiFailure(text))
      case Ok(_) => Ok(Some(dir))
  }

  /** app.py's `index`. */
  method Index(st: AppState, isGet: bool, req: Request, now: string, tempRoot: string,
               existingDirs: set<string>, upload: Uploader,
               pythonApi: Kwargs -> Result<seq<string>, string>)
    returns (page: Routes.Page)
    requires AreFormFields(st.fields)
    ensures isGet ==> page == Routes.FormPage(st.webform)
    ensures !isGet ==> page == Routes.Respond(st.webform,
      Routes.AsText(AppOutcome(st, req, now, tempRoot, existingDirs, upload, pythonApi)), st.printAllErrors)
  {
    if isGet {
      return Routes.FormPage(st.webform);
    }
    var requestDir := RequestDir(tempRoot, now);
    if requestDir in existingDirs {
      return Routes.Respond(st.webform, Routes.AsText(Err(DirExists(requestDir))), st.printAllErrors);
    }
    var inputDir := InputDir(tempRoot, now);
    var store := StoreIn(upload, inputDir);
    var uploads := CollectEveryUpload(st.fields, req, store, inputDir);
    if uploads.Err? {
      return Routes.Respond(st.webform, Routes.AsText(Err(uploads.error)), st.printAllErrors);
    }
    var kwargs := Translate(st, req, store, uploads.value, OutputDir(tempRoot, now));
    var outcome: Result<Option<string>, Failure>;
    match pythonApi(kwargs) {
      case Err(text) =>
        outcome := Err(ApiFailure(text));
      case Ok(_) =>
        outcome := Ok(Some(requestDir));
    }
    page := Routes.Respond(st.webform, Routes.AsText(outcome), st.printAllErrors);
  }

  /** The translation steps of app.py's `index` after the uploads are stored. */
  method Translate(st: AppState, req: Request, upload: string -> string, uploads: Kwargs, outputDir: string)
    returns (kwargs: Kwargs)
    requires AreFormFields(st.fields)
    requires uploads == Uploads(st.fields, req, upload, false)
    ensures kwargs == AppKwargs(st.fields, st.checkboxOptions, req, upload, st.sendFilesParam, outputDir)
  {
    var pre := (uploads + FormValues(req))[st.sendFilesParam := Str(outputDir)];
    var pre2 := CoerceCheckboxes(DropFalsy(pre), st.checkboxOptions);
    kwargs := RebuildForFields(pre2, st.fields);
  }

  /**
   * A file field sent without a file: app.py ends the request with an error
   * and never calls the Python API, while the package skips the upload.
   */
  lemma NamelessUploadFailsOnlyInApp(st: AppState, fields: seq<Dict>, checkboxOptions: seq<string>,
                                     sendFilesParam: string, req: Request, now: string, tempRoot: string,
                                     existingDirs: set<string>, upload: Uploader,
                                     pythonApi: Kwargs -> Result<seq<string>, string>)
    requires AreFormFields(st.fields) && AreFormFields(fields)
    requires RequestDir(tempRoot, now) !in existingDirs && HasNamelessUpload(st.fields, req)
    ensures AppOutcome(st, req, now, tempRoot, existingDirs, upload, pythonApi).Err?
    ensures AppOutcome(st, req, now, tempRoot, existingDirs, upload, pythonApi).error.IsADirectory?
    ensures var r := SubmissionOutcome(fields, checkboxOptions, sendFilesParam, req, now, tempRoot,
                                       existingDirs, upload, pythonApi);
      r.Err? ==> r.error.ApiFailure?
  {
  }

  /** app.py's `export`, the same as the package's. */
  method Export(filesLoc: string, fileNames: seq<string>) returns (e: Routes.Download)
    ensures e == Routes.DownloadOf(filesLoc, fileNames)
  {
    e := Routes.Export(filesLoc, fileNames);
  }
}
