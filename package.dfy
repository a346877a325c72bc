/**
 * The package's `ArgparseToWeb` object: the state its constructor derives
 * from the parser and the builder's options, and `handle_submission`, which
 * creates a request's directories, translates the submission and calls the
 * Python API.
 */
module Package {
  import opened Wrappers
  import opened Python
  import opened Argparse
  import opened FormSpec
  import opened Submission
  import FormSpecProps
  import Builder

  // ---------------------------------------------------------------------------
  // Derived state

  /** An action's name on the command line: its metavar when that is truthy, else its dest. */
  function CliName(a: Action): string
  {
    if a.metavar.Some? && a.metavar.value != "" then a.metavar.value else a.dest
  }

  /** `cli_options`, one name per parser action. */
  function CliOptions(actions: seq<Action>): (r: seq<string>)
    ensures |r| == |actions|
    ensures forall n :: n in r <==> exists i :: 0 <= i < |actions| && CliName(actions[i]) == n
  {
    var r := seq(|actions|, i requires 0 <= i < |actions| => CliName(actions[i]));
    assert forall i :: 0 <= i < |actions| ==> r[i] == CliName(actions[i]);
    r
  }

  /** The parameter names that designate where output goes, in order of preference. */
  const OUTPUT_PARAMS: seq<string> := ["outpath", "outdir", "outfile"]

  /** No name before position `j` of `prefs` is on the command line. */
  predicate FirstAt(prefs: seq<string>, cliOptions: seq<string>, j: int)
    requires 0 <= j <= |prefs|
  {
    forall i :: 0 <= i < j ==> prefs[i] !in cliOptions
  }

  /** The first of `prefs` the command line has, or `''`. */
  function FirstPresent(prefs: seq<string>, cliOptions: seq<string>): (r: string)
    requires forall i :: 0 <= i < |prefs| ==> prefs[i] != ""
    ensures r == "" <==> forall i :: 0 <= i < |prefs| ==> prefs[i] !in cliOptions
    ensures r != "" ==> exists j :: 0 <= j < |prefs| && prefs[j] == r && r in cliOptions && FirstAt(prefs, cliOptions, j)
  {
    if prefs == [] then ""
    else if prefs[0] in cliOptions then prefs[0]
    else
      var r := FirstPresent(prefs[1..], cliOptions);
      assert r != "" ==> exists j :: 1 <= j < |prefs| && prefs[j] == r && r in cliOptions && FirstAt(prefs, cliOptions, j) by {
        if r != "" {
          var j :| 0 <= j < |prefs[1..]| && prefs[1..][j] == r && r in cliOptions && FirstAt(prefs[1..], cliOptions, j);
          assert forall i :: 1 <= i < j + 1 ==> prefs[i] == prefs[1..][i - 1];
          assert FirstAt(prefs, cliOptions, j + 1);
        }
      }
      r
  }

  /**
   * `send_files_param`: the option given, else the first of `outpath`,
   * `outdir` and `outfile` the command line has, else `''`.
   */
  function SendFilesParam(sendFilesOption: string, cliOptions: seq<string>): (r: string)
    ensures sendFilesOption != "" ==> r == sendFilesOption
    ensures sendFilesOption == "" ==>
      (r == "" <==> forall i :: 0 <= i < |OUTPUT_PARAMS| ==> OUTPUT_PARAMS[i] !in cliOptions)
    ensures sendFilesOption == "" && r != "" ==>
      exists j :: 0 <= j < |OUTPUT_PARAMS| && OUTPUT_PARAMS[j] == r && r in cliOptions && FirstAt(OUTPUT_PARAMS, cliOptions, j)
  {
    if sendFilesOption != "" then sendFilesOption else FirstPresent(OUTPUT_PARAMS, cliOptions)
  }

  /** `checkbox_options`: the names of the checkbox fields, in field order. */
  function CheckboxOptions(fields: seq<Dict>): (r: seq<string>)
    requires AreFormFields(fields)
    ensures |r| <= |fields|
    ensures forall n :: n in r <==> exists i :: 0 <= i < |fields| && fields[i][Type] == Str("checkbox") && NameOfField(fields[i]) == n
  {
    if fields == [] then []
    else
      var rest := CheckboxOptions(fields[1..]);
      assert forall i :: 1 <= i < |fields| ==> fields[i] == fields[1..][i - 1];
      assert forall i :: 0 <= i < |fields| - 1 ==> fields[1..][i] == fields[i + 1];
      (if fields[0][Type] == Str("checkbox") then [NameOfField(fields[0])] else []) + rest
  }

  /** A returned field carries a text name, a type and a multiple-input flag. */
  lemma StrippedIsFormField(f: Field)
    requires Complete(f)
    ensures IsFormField(Stripped(AsDict(f)))
  {
    var d := AsDict(f);
    assert Name in d && Type in d && MultipleInput in d && d[Name] == Str(f.name.value);
    assert Name !in DEL_KEYS && Type !in DEL_KEYS && MultipleInput !in DEL_KEYS;
  }

  lemma StrippedAreFormFields(s: seq<Field>, refs: seq<nat>, out: seq<Dict>)
    requires forall k :: 0 <= k < |s| ==> Complete(s[k])
    requires |out| == |refs| && forall k :: 0 <= k < |refs| ==> refs[k] < |s| && out[k] == Stripped(AsDict(s[refs[k]]))
    ensures AreFormFields(out)
  {
    forall k | 0 <= k < |out| ensures IsFormField(out[k]) {
      StrippedIsFormField(s[refs[k]]);
    }
  }

  lemma BuiltPrimaryAreFormFields(parser: Parser, opts: Options)
    requires BuildSpec(parser, opts).Ok?
    ensures AreFormFields(BuildSpec(parser, opts).value.fields)
  {
    FormSpecProps.BuildOutcome(parser, opts);
    var s := StagedFields(parser, opts).value;
    StrippedAreFormFields(s, PrimaryRefs(s, opts), BuildSpec(parser, opts).value.fields);
  }

  lemma BuiltAdvancedAreFormFields(parser: Parser, opts: Options)
    requires BuildSpec(parser, opts).Ok?
    ensures AreFormFields(BuildSpec(parser, opts).value.advancedFields)
  {
    FormSpecProps.BuildOutcome(parser, opts);
    var s := StagedFields(parser, opts).value;
    StrippedAreFormFields(s, AdvancedRefs(s, opts), BuildSpec(parser, opts).value.advancedFields);
  }

  lemma FormFieldsAppend(a: seq<Dict>, b: seq<Dict>)
    requires AreFormFields(a) && AreFormFields(b)
    ensures AreFormFields(a + b)
  {
    forall i | 0 <= i < |a + b| ensures IsFormField((a + b)[i]) {
      if i < |a| {
        assert (a + b)[i] == a[i];
      } else {
        assert (a + b)[i] == b[i - |a|];
      }
    }
  }

  /** The builder's fields carry a text name, a type and a multiple-input flag. */
  lemma BuiltFieldsAreFormFields(parser: Parser, opts: Options)
    requires BuildSpec(parser, opts).Ok?
    ensures AreFormFields(BuildSpec(parser, opts).value.fields + BuildSpec(parser, opts).value.advancedFields)
  {
    BuiltPrimaryAreFormFields(parser, opts);
    BuiltAdvancedAreFormFields(parser, opts);
    FormFieldsAppend(BuildSpec(parser, opts).value.fields, BuildSpec(parser, opts).value.advancedFields);
  }

  // ---------------------------------------------------------------------------
  // The request's directories

  function Min(a: int, b: int): int { if a <= b then a else b }

  /** `str(now)[:19].replace(':', '.')`: the timestamp to the second, colons turned into dots. */
  function RequestDirName(now: string): (name: string)
    ensures |name| == Min(19, |now|)
    ensures ':' !in name
    ensures forall i :: 0 <= i < |name| ==> name[i] == (if now[i] == ':' then '.' else now[i])
  {
    var name := ReplaceChar(now[..Min(19, |now|)], ':', '.');
    ReplacedCharIsGone(now[..Min(19, |now|)], ':', '.');
    name
  }

  /** Timestamps that differ within their first 19 characters, and have no dot there, give different names. */
  lemma DistinctSecondsDistinctNames(now1: string, now2: string)
    requires |now1| >= 19 && |now2| >= 19
    requires '.' !in now1[..19] && '.' !in now2[..19]
    requires now1[..19] != now2[..19]
    ensures RequestDirName(now1) != RequestDirName(now2)
  {
    var i :| 0 <= i < 19 && now1[..19][i] != now2[..19][i];
    assert now1[..19][i] in now1[..19] && now2[..19][i] in now2[..19];
    assert RequestDirName(now1)[i] != RequestDirName(now2)[i];
  }

  /** Submissions within the same second get the same directory name. */
  lemma SameSecondSameName(now1: string, now2: string)
    requires |now1| >= 19 && |now2| >= 19 && now1[..19] == now2[..19]
    ensures RequestDirName(now1) == RequestDirName(now2)
  {
    assert forall i :: 0 <= i < 19 ==> now1[i] == now1[..19][i] && now2[i] == now2[..19][i];
  }

  function RequestDir(tempRoot: string, now: string): string
  {
    PathJoin(tempRoot, RequestDirName(now))
  }

  function InputDir(tempRoot: string, now: string): string
  {
    PathJoin(RequestDir(tempRoot, now), "input")
  }

  function OutputDir(tempRoot: string, now: string): string
  {
    PathJoin(RequestDir(tempRoot, now), "output")
  }

  /** Under a root path, the output directory is `output` inside the request's directory. */
  lemma OutputInsideRequestDir(tempRoot: string, now: string)
    requires tempRoot != "" && tempRoot[|tempRoot| - 1] != '/'
    requires now != "" && '/' !in now
    ensures RequestDir(tempRoot, now) == tempRoot + "/" + RequestDirName(now)
    ensures OutputDir(tempRoot, now) == RequestDir(tempRoot, now) + "/output"
    ensures InputDir(tempRoot, now) == RequestDir(tempRoot, now) + "/input"
  {
    var name := RequestDirName(now);
    assert now[0] in now && now[|name| - 1] in now;
    assert name[0] != '/' && name[|name| - 1] != '/';
    var dir := tempRoot + "/" + name;
    assert dir[|dir| - 1] == name[|name| - 1];
  }

  // ---------------------------------------------------------------------------
  // The outcome of a submission

  /** The exceptions a submission can raise. */
  datatype Failure =
    | DirExists(path: string)  // FileExistsError from os.mkdir
    | ApiFailure(text: string) // whatever the Python API raised, by its text
    | IsADirectory(path: string) // IsADirectoryError from os.remove in upload_file

  /**
   * `str(err)`. An operating-system error reads as its errno line followed by
   * the path in single quotes, which is how `repr` quotes a path holding no
   * quote and no backslash.
   */
  function FailureText(f: Failure): (r: string)
    ensures f.ApiFailure? ==> r == f.text
    ensures !f.ApiFailure? ==> |r| > |f.path| + 11 && r[|r| - 1] == '\''
    ensures f.DirExists? ==> r[..10] == "[Errno 17]"
    ensures f.IsADirectory? ==> r[..10] == "[Errno 21]"
    ensures !f.ApiFailure? ==> r[|r| - |f.path| - 2] == '\'' && r[|r| - |f.path| - 1..|r| - 1] == f.path
  {
    match f
    case DirExists(path) => "[Errno 17] File exists: '" + path + "'"
    case ApiFailure(text) => text
    case IsADirectory(path) => "[Errno 21] Is a directory: '" + path + "'"
  }

  /** The text of an operating-system error tells which error it is and on which path. */
  lemma OsFailureTextInjective(f: Failure, g: Failure)
    requires !f.ApiFailure? && !g.ApiFailure?
    requires FailureText(f) == FailureText(g)
    ensures f == g
  {
    var r := FailureText(f);
    assert r[..10] == FailureText(g)[..10];
    assert f.DirExists? <==> g.DirExists?;
    assert |f.path| == |g.path|;
    assert f.path == r[|r| - |f.path| - 1..|r| - 1] == g.path;
  }

  /**
   * `handle_submission`'s result: the request's directory when the Python
   * API left output files, `None` when it left none, or the exception raised.
   * Uploads are stored into the request's input directory. `pythonApi` stands
   * for the call and the listing of the output directory after it.
   */
  function SubmissionOutcome(fields: seq<Dict>, checkboxOptions: seq<string>, sendFilesParam: string,
                             req: Request, now: string, tempRoot: string, existingDirs: set<string>,
                             upload: Uploader, pythonApi: Kwargs -> Result<seq<string>, string>)
    : (r: Result<Option<string>, Failure>)
    requires AreFormFields(fields)
    ensures RequestDir(tempRoot, now) in existingDirs ==> r == Err(DirExists(RequestDir(tempRoot, now)))
    ensures RequestDir(tempRoot, now) !in existingDirs ==>
      var store := StoreIn(upload, InputDir(tempRoot, now));
      var api := pythonApi(PackageKwargs(fields, checkboxOptions, req, store, sendFilesParam, OutputDir(tempRoot, now)));
      && (api.Err? ==> r == Err(ApiFailure(api.error)))
      && (api.Ok? ==> r.Ok? && (r.value.Some? <==> api.value != []))
      && (r.Ok? && r.value.Some? ==> r.value.value == RequestDir(tempRoot, now))
  {
    var dir := RequestDir(tempRoot, now);
    if dir in existingDirs then Err(DirExists(dir))
    else
      var store := StoreIn(upload, InputDir(tempRoot, now));
      match pythonApi(PackageKwargs(fields, checkboxOptions, req, store, sendFilesParam, OutputDir(tempRoot, now)))
      case Err(text) => Err(ApiFailure(text))
      case Ok(outputFiles) => Ok(if outputFiles != [] then Some(dir) else None)
  }

  // ---------------------------------------------------------------------------
  // The object

  class ArgparseToWeb {
    const parser: Parser
    const options: Options
    const debug: bool
    const sendFilesOption: string

    var webform: WebformSpec
    var fields: seq<Dict>
    var checkboxOptions: seq<string>
    var printAllErrors: bool
    var sendFilesParam: string

    /** The derived attributes agree with the parser and the options. */
    ghost predicate Valid()
      reads this
    {
      && BuildSpec(parser, options) == Ok(webform)
      && fields == webform.fields + webform.advancedFields
      && AreFormFields(fields)
      && checkboxOptions == CheckboxOptions(fields)
      && printAllErrors == debug
      && sendFilesParam == SendFilesParam(sendFilesOption, CliOptions(parser.actions))
    }

    /** The attribute assignments of `__init__`, once the builder has produced `webform`. */
    constructor (parser: Parser, options: Options, debug: bool, sendFilesOption: string, webform: WebformSpec)
      requires BuildSpec(parser, options) == Ok(webform)
      ensures Valid()
      ensures this.parser == parser && this.options == options && this.debug == debug
      ensures this.sendFilesOption == sendFilesOption && this.webform == webform
    {
      BuiltFieldsAreFormFields(parser, options);
      this.parser := parser;
      this.options := options;
      this.debug := debug;
      this.sendFilesOption := sendFilesOption;
      this.webform := webform;
      var all := webform.fields + webform.advancedFields;
      this.fields := all;
      this.checkboxOptions := CheckboxOptions(all);
      this.printAllErrors := debug;
      this.sendFilesParam := SendFilesParam(sendFilesOption, CliOptions(parser.actions));
    }

    /** `__init__`: the builder's exception propagates; otherwise a valid object. */
    static method Create(parser: Parser, options: Options, debug: bool, sendFilesOption: string)
      returns (r: Result<ArgparseToWeb, BuildError>)
      ensures r.Err? <==> BuildSpec(parser, options).Err?
      ensures r.Err? ==> r.error == BuildSpec(parser, options).error
      ensures r.Ok? ==> fresh(r.value) && r.value.Valid() && r.value.webform == BuildSpec(parser, options).value
      ensures r.Ok? ==> r.value.parser == parser && r.value.options == options && r.value.debug == debug
      ensures r.Ok? ==> r.value.sendFilesOption == sendFilesOption
    {
      var spec := Builder.CreateWebformSpec(parser, options);
      if spec.Err? {
        return Err(spec.error);
      }
      var a := new ArgparseToWeb(parser, options, debug, sendFilesOption, spec.value);
      return Ok(a);
    }

    /**
     * `handle_submission`: the keyword arguments handed to the Python API and
     * the outcome; nothing is handed over when the request's directory exists.
     */
    method HandleSubmission(req: Request, now: string, tempRoot: string, existingDirs: set<string>,
                            upload: Uploader, pythonApi: Kwargs -> Result<seq<string>, string>)
      returns (kwargs: Kwargs, r: Result<Option<string>, Failure>)
      requires Valid()
      ensures r == SubmissionOutcome(fields, checkboxOptions, sendFilesParam, req, now, tempRoot, existingDirs, upload, pythonApi)
      ensures RequestDir(tempRoot, now) !in existingDirs ==>
        kwargs == PackageKwargs(fields, checkboxOptions, req, StoreIn(upload, InputDir(tempRoot, now)),
                                sendFilesParam, OutputDir(tempRoot, now))
    {
      var requestDir := RequestDir(tempRoot, now);
      if requestDir in existingDirs {
        return map[], Err(DirExists(requestDir));
      }
      var inputDir := InputDir(tempRoot, now);
      var outputDir := OutputDir(tempRoot, now);
      var uploads := CollectUploads(fields, req, StoreIn(upload, inputDir), true);
      var pre := uploads + FormValues(req);
      var pre3 := CoerceCheckboxes(DropFalsy(pre), checkboxOptions);
      var pre4 := RebuildForFields(pre3, fields);
      kwargs := pre4[sendFilesParam := Str(outputDir)];
      match pythonApi(kwargs)
      case Err(text) =>
        r := Err(ApiFailure(text));
      case Ok(outputFiles) =>
        r := Ok(if outputFiles != [] then Some(requestDir) else None);
    }
  }
}
