# argparse-to-web, modelled in Dafny

argparse-to-web turns the command-line interface of a Python program,
declared with `argparse`, into a web form. It also turns a submission of
that form into a keyword-argument call of the program's Python API. This
project models the following and proves what they promise:

- **The form-spec builder.** This covers `ArgparseToWeb.create_webform_spec`
  and its copy `argeparse_to_webform` in app.py. They take the parser's
  actions and the builder's options and give a title, a subtitle, the
  primary fields and the advanced fields.
- **The lookup tables of `config.py`.**
- **The state the `ArgparseToWeb` constructor derives from the form.** This
  is the field list, the checkbox names and the name of the parameter that
  receives the output directory (the "destination").
- **Submission handling.** This covers `handle_submission` and the POST
  branch of app.py's `index`:
  - the request directory named after the timestamp;
  - storing the uploads;
  - merging the uploads with the form values;
  - dropping empty values;
  - turning checkboxes into booleans;
  - splitting multi-value text on single spaces;
  - inserting the destination;
  - calling the API.
- **The `index` and `export` routes.** `index` gives the page arguments for
  a form, a result or an error message. `export` gives the file sent back:
  the single output file, or a `results.zip` of all of them.

Files:

| file | module | what it holds |
|---|---|---|
| `wrappers.dfy` | `Wrappers` | `Option` and `Result` |
| `python.dfy` | `Python` | field values, truthiness, `lower`, `capitalize`, `replace`, `split(' ')`, `' '.join`, POSIX `os.path.join` |
| `argparse.dfy` | `Argparse` | the parser and its actions, described explicitly |
| `config.dfy` | `Config` | `DEL_ATTRS`, `EXCLUDE_ACTIONS`, `MULTIPLE_INPUT_TYPES`, `TYPE_CONVERSIONS` |
| `formspec.dfy` | `FormSpec` | the builder's stages as functions over a field record, and later over dictionaries |
| `formspec_props.dfy` | `FormSpecProps` | what the builder promises, proved over all parsers and options |
| `builder.dfy` | `Builder` | the builder as written: one loop per stage, each proved to compute its stage function |
| `submission.dfy` | `Submission` | the translation of a submission into keyword arguments, as functions and as the source's loops |
| `submission_props.dfy` | `SubmissionProps` | what the translation promises, for the package and for app.py |
| `package.dfy` | `Package` | the class `ArgparseToWeb`: constructor, derived state, request directories, `handle_submission` |
| `routes.dfy` | `Routes` | the package's `index` and `export` routes |
| `app.dfy` | `App` | app.py: its configuration, its module-level state, and its `index` and `export` routes |

Modelling choices:

- **Values.** A field dictionary holds Python values: `None`, booleans,
  ints, strings, string lists, type objects and opaque objects. They are
  modelled by `Python.Value`, and `Python.Truthy` is Python's `bool(v)`.
- **Fields.** Through stage 8 a field is a record whose optional members
  record which keys the dictionary has so far. Stage 9 works on real
  dictionaries (`map<Attr, Value>`), so a missing key makes `del` raise
  `KeyError`.
- **Aliasing.** Stages 7 and 8 (partition and ordering) put the same
  dictionary object into lists. They are modelled as lists of indices into
  one store. A field listed twice is therefore stripped twice, and the
  second `del fld['container']` raises `KeyError('container')`. That is
  what the source does when an order names a dest twice.
- **Parameters for the outside world.** Everything else the source gets
  from outside is a parameter:
  - `now` is the text of `datetime.now()`;
  - `tempRoot` is `TEMP_FILES_ROOT_DIR`;
  - `existingDirs` is the set of directories already present;
  - `upload` is `upload_file`, a function of the directory it is handed and
    an upload's file name, giving the path the upload is stored under. Both
    translations hand it the request's `input` directory;
  - `pythonApi` gives a set of keyword arguments the API's outcome, which is
    either the listing of the output directory afterwards or the text of the
    exception raised.
- **The two translations.** The package and app.py translate submissions
  differently, and both are modelled:
  - the package skips uploads without a file name, and adds the
    destination after the filters;
  - app.py does not skip uploads without a file name, and inserts the
    destination before the filters. So in app.py the destination survives
    only if a field bears its name (`SubmissionProps.AppDestination`);
  - in app.py an upload without a file name makes `upload_file` join the
    input directory with `''`. That path is the input directory itself
    with a trailing `/`, which exists, so `os.remove` raises
    `IsADirectoryError`. The request then ends on the error page and the
    API is never called (`App.CollectEveryUpload`, `App.AppOutcome`).
- **Where the code is followed over the design description:**
  - a key named by several fields takes the value shaped by the LAST such
    field, because the inner loop's `continue` does not stop it
    (`Submission.LastFieldNamed`, `Submission.LastFieldNamedIsLast`);
  - an unticked checkbox is absent from the keyword arguments, not `False`;
  - app.py's `index` reports the request directory even when the API wrote
    no output. The package reports `None` in that case;
  - `export` writes `results.zip` into the directory it packs, so when the
    listing already holds a `results.zip`, the archive is one of its own
    entries (`Routes.ArchiveAmongEntries`).

## Model

| member | source | states |
|---|---|---|
| Config.IsExcluded | argparse_to_web/config.py:11 | exactly the help and version actions are excluded |
| Config.IsMultipleInputType | argparse_to_web/config.py:12 | exactly the append and append-const actions always take several values |
| Config.Fallback | argparse_to_web/config.py:13-21 | `'text'` for append, store and count; `'checkbox'` for the four flag-like classes; no entry (a `KeyError`) for any other class |
| Config.ExcludedHaveNoFallback | argparse_to_web/config.py:11-21 | the excluded classes have no fallback type, so excluding them first avoids a `KeyError` |
| FormSpecProps.DelAttrsMatchConfig | argparse_to_web/config.py:8-10 | the keys stage 9 deletes are `DEL_ATTRS`, in order |
| Python.Lower | argparse_to_web/argparse_to_web.py:163 | same length; every letter lower-cased (ASCII) |
| Python.Capitalize | argparse_to_web/argparse_to_web.py:165 | first character upper-cased and the rest lower-cased |
| Python.ReplaceChar | argparse_to_web/argparse_to_web.py:165 | each occurrence of the character replaced, everything else unchanged |
| Python.Split | argparse_to_web/argparse_to_web.py:311-313 | one piece more than there are separators, and no piece contains the separator |
| Python.JoinSplit | argparse_to_web/argparse_to_web.py:311-313 | joining the pieces of `split(' ')` with spaces gives back the text |
| Python.SplitJoin | argparse_to_web/argparse_to_web.py:311-313 | splitting a join of space-free pieces gives back the pieces |
| Python.PathJoin | argparse_to_web/argparse_to_web.py:257-262 | an absolute second part replaces the first; otherwise the result is `a + b` when `a` is empty or ends in `/`, and `a + "/" + b` when it does not |
| FormSpec.KeptActions | argparse_to_web/argparse_to_web.py:149-158 | the kept actions are the parser's actions that are neither excluded nor ignored by dest |
| FormSpec.WithNameAndLabel | argparse_to_web/argparse_to_web.py:161-167 | the field gains a name and a label and nothing else changes |
| FormSpec.NameAll | argparse_to_web/argparse_to_web.py:161-167 | every field is named and labelled in place, in the same order |
| FormSpec.MultipleAll | argparse_to_web/argparse_to_web.py:170-177 | every field gains the multi-value flag and its limit and nothing else changes |
| FormSpec.ValidateFrom | argparse_to_web/argparse_to_web.py:180-186 | fails exactly when some field fails the count-type check; otherwise each field is its validated form |
| FormSpec.ConvertFrom | argparse_to_web/argparse_to_web.py:189-193 | fails with a `KeyError` exactly when some field has no web-form type; otherwise each field is its converted form |
| FormSpec.HelpAll | argparse_to_web/argparse_to_web.py:196-200 | only the help of each field changes |
| FormSpec.StagedFields | argparse_to_web/argparse_to_web.py:148-200 | stages 1 to 6 either give complete named fields or fail with a type-check or key error |
| FormSpec.OrderRefs | argparse_to_web/argparse_to_web.py:212-225 | the ordering refers only to fields of the list that is ordered |
| FormSpec.DeleteKeys | argparse_to_web/argparse_to_web.py:229-230 | deleting keys either succeeds or fails with a `KeyError` |
| FormSpec.Arrange | argparse_to_web/argparse_to_web.py:203-234 | stages 7 to 9 either succeed or fail with a `KeyError` |
| FormSpec.BuildSpec | argparse_to_web/argparse_to_web.py:108-236 | fails with the no-title error exactly when the title is empty; on success carries the resolved title and subtitle |
| FormSpecProps.TitleRule | argparse_to_web/argparse_to_web.py:136-146 | the title is the option, else `prog`; the build fails for want of one exactly when neither is given; the subtitle is the option, else the description, else `''` |
| FormSpecProps.FieldNameLabelHelp | argparse_to_web/argparse_to_web.py:161-200 | name = truthy metavar else dest, lower-cased; label = the override for the dest, else the name with `_` as spaces, capitalized; help = the override for the name, else the action's help |
| FormSpecProps.FieldMultipleInput | argparse_to_web/argparse_to_web.py:170-177 | multi-value exactly for append, append-const or truthy `nargs`; no limit flag; the limit is an integer `nargs`, else `None` |
| FormSpecProps.CountTypeCheck | argparse_to_web/argparse_to_web.py:180-186 | a field raises the count-type `TypeError` exactly when it is a count action with a declared type other than `int` |
| FormSpecProps.FieldType | argparse_to_web/argparse_to_web.py:180-193 | the type is `'file'` for `open` or an upload option, else `'int'` for a count, else the declared type, else the class's fallback; the build fails with `KeyError(cli_type)` exactly when none applies; `validation_type` is the declared type |
| FormSpecProps.UntypedAppendConstIsMultipleCheckbox | argparse_to_web/argparse_to_web.py:170-193 | an untyped append-const option that is not an upload becomes a multi-value checkbox |
| FormSpecProps.KeptActionsAppend | argparse_to_web/argparse_to_web.py:149-158 | exclusion keeps parser order: it distributes over concatenation |
| FormSpecProps.PreparedFields | argparse_to_web/argparse_to_web.py:148-177 | after stage 3 there is one prepared field per kept action, in order |
| FormSpecProps.StagedFieldsPointwise | argparse_to_web/argparse_to_web.py:148-200 | stages 1 to 6 succeed exactly when each kept action's own field builds, and then give those fields in parser order |
| FormSpecProps.StagedErrPointwise | argparse_to_web/argparse_to_web.py:180-193 | a failing staged list has a kept action whose own field fails |
| FormSpecProps.StagedOkPointwise | argparse_to_web/argparse_to_web.py:148-200 | a succeeding staged list holds each kept action's own field |
| FormSpecProps.DeleteKeysOutcome | argparse_to_web/argparse_to_web.py:229-230 | deleting a key list succeeds exactly when every key is present and none is repeated, and removes exactly those keys |
| FormSpecProps.DelAttrsAreDelKeys | argparse_to_web/config.py:8-10 | the deleted attributes are distinct, and `container` comes first |
| FormSpecProps.DeleteDelAttrs | argparse_to_web/argparse_to_web.py:228-234 | a full dictionary is stripped; one that lacks `container` fails with `KeyError('container')` |
| FormSpecProps.StripFromSucceeds | argparse_to_web/argparse_to_web.py:228-234 | stripping through the lists succeeds exactly when no dictionary is listed twice and each still holds the internal keys |
| FormSpecProps.StripFromError | argparse_to_web/argparse_to_web.py:228-234 | a failing strip always fails with `KeyError('container')` |
| FormSpecProps.StripFromValues | argparse_to_web/argparse_to_web.py:228-234 | a succeeding strip strips every listed dictionary and leaves the others as they were |
| FormSpecProps.FinalKeys | argparse_to_web/argparse_to_web.py:155-234 | a returned field holds exactly the added keys plus `choices`, `default`, `help`, `required` and `type` |
| FormSpecProps.RefsWhereMembers | argparse_to_web/argparse_to_web.py:203-209 | the partition keeps, in increasing order, exactly the fields whose name is (or is not) advanced |
| FormSpecProps.MatchingRefsMembers | argparse_to_web/argparse_to_web.py:215-217 | one name picks exactly the listed fields with that dest |
| FormSpecProps.OrderRefsMembers | argparse_to_web/argparse_to_web.py:212-225 | ordering keeps exactly the listed fields whose dest is named in the order |
| FormSpecProps.MatchingRefsIncreasing | argparse_to_web/argparse_to_web.py:215-217 | the fields one name picks keep the list's order |
| FormSpecProps.OrderRefsAppend | argparse_to_web/argparse_to_web.py:212-225 | ordering by a concatenation of names is the concatenation of the orderings |
| FormSpecProps.OrderRefsSingle | argparse_to_web/argparse_to_web.py:214-217 | ordering by one name is the matching fields in list order |
| FormSpecProps.OrderRefsDistinct | argparse_to_web/argparse_to_web.py:212-225 | names listed once each never pick a field twice |
| FormSpecProps.Partition | argparse_to_web/argparse_to_web.py:203-225 | a field is primary exactly when its name is not advanced (and its dest is in `option_order`, when one is given); it is advanced exactly when its name is advanced and its dest is in the advanced order |
| FormSpecProps.PrimaryKeepsParserOrder | argparse_to_web/argparse_to_web.py:203-218 | without `option_order` the primary fields keep parser order |
| FormSpecProps.DistinctOrders | argparse_to_web/argparse_to_web.py:212-225 | orders without repeats list every field at most once |
| FormSpecProps.DictsFull | argparse_to_web/argparse_to_web.py:148-200 | every staged dictionary still holds the internal keys |
| FormSpecProps.ArrangeSucceeds | argparse_to_web/argparse_to_web.py:203-234 | stages 7 to 9 succeed exactly when no field is listed twice across the two lists, and otherwise fail with `KeyError('container')` |
| FormSpecProps.ArrangeValues | argparse_to_web/argparse_to_web.py:203-234 | on success each list holds the stripped dictionaries of the fields it refers to, in order |
| FormSpecProps.BuildOutcome | argparse_to_web/argparse_to_web.py:108-236 | with a title: a stage 1-6 error propagates; otherwise the build succeeds exactly when no field is listed twice, fails with `KeyError('container')` otherwise, and returns the stripped fields of both ordered lists |
| FormSpecProps.StrippedKeys | argparse_to_web/argparse_to_web.py:228-234 | every returned dictionary holds exactly the public keys |
| FormSpecProps.BuildSucceeds | argparse_to_web/argparse_to_web.py:108-236 | with a title, fields that all build and orders without repeats, the build succeeds and every field holds exactly the public keys |
| FormSpecProps.OrderRefsRepeat | argparse_to_web/argparse_to_web.py:212-225 | a name listed twice that matches a field picks that field twice |
| FormSpecProps.DuplicateOrderFails | argparse_to_web/argparse_to_web.py:212-234 | an `option_order` that names a primary field's dest twice makes the build fail with `KeyError('container')` |
| FormSpecProps.DuplicateAdvancedOrderFails | argparse_to_web/argparse_to_web.py:220-234 | the same for the advanced order and an advanced field |
| Builder.CollectOptions | argparse_to_web/argparse_to_web.py:149-158 | the loop computes stage 1 |
| Builder.NameAndLabel | argparse_to_web/argparse_to_web.py:161-167 | the loop computes stage 2 |
| Builder.AddMultipleInput | argparse_to_web/argparse_to_web.py:170-177 | the loop computes stage 3 |
| Builder.ValidateAll | argparse_to_web/argparse_to_web.py:180-186 | the loop computes stage 4, raising at the first failing field |
| Builder.ConvertAll | argparse_to_web/argparse_to_web.py:189-193 | the loop computes stage 5, raising at the first failing field |
| Builder.OverrideHelp | argparse_to_web/argparse_to_web.py:196-200 | the loop computes stage 6 |
| Builder.SplitAdvanced | argparse_to_web/argparse_to_web.py:203-209 | the loop computes the partition into primary and advanced fields |
| Builder.OrderFields | argparse_to_web/argparse_to_web.py:212-225 | the nested loops compute the ordering |
| Builder.DeleteAttrs | argparse_to_web/argparse_to_web.py:229-230 | the loop deletes `DEL_ATTRS` from one dictionary or raises |
| Builder.StripLists | argparse_to_web/argparse_to_web.py:228-234 | the loops strip the primary fields, then the advanced ones, through the shared store |
| Builder.StageFields | argparse_to_web/argparse_to_web.py:148-200 | stages 1 to 6 composed compute `StagedFields` |
| Builder.ArrangeFields | argparse_to_web/argparse_to_web.py:203-234 | stages 7 to 9 composed compute `Arrange` |
| Builder.CreateWebformSpec | argparse_to_web/argparse_to_web.py:108-236 | the builder computes `BuildSpec`, about which the lemmas above hold |
| App.ArgeparseToWebform | app.py:46-197 | app.py's copy of the builder computes the same `BuildSpec` |
| Package.CliOptions | argparse_to_web/argparse_to_web.py:91-92 | one command-line name per action; a name is present exactly when some action's truthy metavar, or else its dest, is that name |
| Package.FirstPresent | argparse_to_web/argparse_to_web.py:94-97 | `''` exactly when no preferred name is on the command line; otherwise the first one that is |
| Package.SendFilesParam | argparse_to_web/argparse_to_web.py:93-97 | the given option if there is one; else `''` exactly when none of `outpath`, `outdir`, `outfile` is on the command line; else the first of them that is |
| Package.CheckboxOptions | argparse_to_web/argparse_to_web.py:87-88 | a name is listed exactly when some field of type `'checkbox'` bears it |
| Package.StrippedIsFormField | argparse_to_web/argparse_to_web.py:228-234 | a returned field keeps a text name, a type and a multi-value flag |
| Package.BuiltFieldsAreFormFields | argparse_to_web/argparse_to_web.py:85-86 | every field of `webform['fields'] + webform['advanced_fields']` has the entries the translation reads |
| Package.RequestDirName | argparse_to_web/argparse_to_web.py:255-256 | the first 19 characters of the timestamp (or all of them, if fewer), each `:` turned into `.`; the name holds no `:` |
| Package.DistinctSecondsDistinctNames | argparse_to_web/argparse_to_web.py:255-256 | timestamps that differ within their first 19 characters (and have no `.` there) give different directory names |
| Package.SameSecondSameName | argparse_to_web/argparse_to_web.py:255-256 | two submissions within the same second get the same directory name, so the second one collides |
| Package.OutputInsideRequestDir | argparse_to_web/argparse_to_web.py:257-262 | under a root path, the request directory is `root/name`, with `input` and `output` inside it |
| Package.FailureText | argparse_to_web/routes.py:40-43 | `str(err)` of a submission's exception: the API's own text, or an errno line (`[Errno 17]` for `FileExistsError`, `[Errno 21]` for `IsADirectoryError`) ending in the path in single quotes |
| Package.OsFailureTextInjective | argparse_to_web/routes.py:40-43 | the text of an operating-system error determines the error and its path |
| Package.SubmissionOutcome | argparse_to_web/argparse_to_web.py:252-333 | an existing request directory raises `FileExistsError`; otherwise the API's exception propagates, or the result is the request directory exactly when the output listing is non-empty, else `None` |
| Package.ArgparseToWeb.constructor | argparse_to_web/argparse_to_web.py:69-97 | stores the arguments, and derives fields, checkbox names, error verbosity and destination as `Valid()` states |
| Package.ArgparseToWeb.Create | argparse_to_web/argparse_to_web.py:69-97 | the builder's exception propagates; otherwise a fresh valid object whose form is `BuildSpec`'s |
| Package.ArgparseToWeb.HandleSubmission | argparse_to_web/argparse_to_web.py:238-333 | returns `SubmissionOutcome`, and hands the API exactly `PackageKwargs`, with the uploads stored into the request's input directory, whenever the directories can be made |
| Submission.FileFieldNames | argparse_to_web/argparse_to_web.py:268-271 | a name is present exactly when some field of type `'file'` bears it |
| Submission.StoreFiles | argparse_to_web/argparse_to_web.py:274-284 | the inner loop stores the uploads in order, skipping nameless ones when asked |
| Submission.CollectUploads | argparse_to_web/argparse_to_web.py:267-284 | the loop gives every file field the list of its stored paths |
| Submission.Merged | argparse_to_web/argparse_to_web.py:287-290 | the keys are the form's keys plus the file fields; a form value overrides; otherwise the upload list |
| Submission.DropFalsy | argparse_to_web/argparse_to_web.py:292-296 | a key is kept exactly when its value is truthy, with its value unchanged |
| Submission.CoerceCheckboxes | argparse_to_web/argparse_to_web.py:298-304 | a key is kept exactly when its value is truthy; a checkbox becomes `True` exactly when its value is `'on'`; other values are unchanged |
| Submission.LastFieldNamed | argparse_to_web/argparse_to_web.py:308-316 | `None` exactly when no field bears the name; otherwise a field of the list that bears it |
| Submission.LastFieldNamedIsLast | argparse_to_web/argparse_to_web.py:308-316 | the field found sits at some position of the list, and no later field bears the name |
| Submission.SplitValue | argparse_to_web/argparse_to_web.py:311-315 | a multi-value field's text becomes its `split(' ')`; any other value passes unchanged |
| Submission.KeepFieldValues | argparse_to_web/argparse_to_web.py:307-316 | a key is kept exactly when it is present and some field bears its name; its value is `FieldValue`, the value as shaped by the last field bearing the name (a multi-value field's text split on single spaces) |
| Submission.ValueForKey | argparse_to_web/argparse_to_web.py:309-316 | the inner loop finds a field exactly when one bears the name, and assigns the value the last one shapes |
| Submission.RebuildForFields | argparse_to_web/argparse_to_web.py:307-316 | the nested loops compute `KeepFieldValues` |
| SubmissionProps.StoredPathsAll | app.py:300-311 | without skipping, every upload is stored, in order (app.py reaches this only when every upload has a file name; see `App.CollectEveryUpload`) |
| SubmissionProps.NamedFiles | argparse_to_web/argparse_to_web.py:278-279 | the uploads that carry a file name, and all of them |
| SubmissionProps.StoredPathsSkip | argparse_to_web/argparse_to_web.py:274-284 | skipping stores exactly the uploads that carry a file name, in order |
| SubmissionProps.PackageKwargsShape | argparse_to_web/argparse_to_web.py:286-322 | the destination is always handed the output directory; any other key is handed over exactly when it is in the merged submission with a truthy value and names a field, with its checkbox-coerced, split value |
| SubmissionProps.PackageKeysAreFieldNames | argparse_to_web/argparse_to_web.py:307-322 | every key handed over is the destination or the name of a field |
| SubmissionProps.PackageCheckbox | argparse_to_web/argparse_to_web.py:298-304 | a checkbox is handed `True` exactly when the form sent `'on'` |
| SubmissionProps.PackageUnticked | argparse_to_web/argparse_to_web.py:287-304 | a checkbox the form did not send is not handed over at all |
| SubmissionProps.PackageMultiValue | argparse_to_web/argparse_to_web.py:311-313 | a multi-value text field is handed space-free pieces whose single-space join is the text typed |
| SubmissionProps.AppKwargsShape | app.py:313-344 | a key, the destination included, is handed over exactly when its merged value is truthy and it names a field |
| SubmissionProps.AppDestination | app.py:313-344 | app.py hands the destination over exactly when some field bears its name |
| SubmissionProps.AppKeysAreFieldNames | app.py:334-344 | every key app.py hands over is the name of a field |
| SubmissionProps.SameTranslationWithoutEmptyUploads | app.py:300-344 | when no file field has an upload without a file name, app.py and the package hand over the same keys and values apart from the destination |
| SubmissionProps.MergedAgree | argparse_to_web/argparse_to_web.py:274-290 | when no file field has an upload without a file name, the merged submission with skipping and without it has the same keys and the same values |
| SubmissionProps.NoEmptyNamesKept | argparse_to_web/argparse_to_web.py:278-279 | when every upload has a file name, skipping drops none of them |
| Routes.ErrorMessage | argparse_to_web/routes.py:40-43 | the message starts with the fixed prefix, followed by the exception's text exactly when all errors are printed |
| Routes.Respond | argparse_to_web/routes.py:26-47 | a result page with empty stderr and stdout and the reported location on success; otherwise an error page with the message |
| Routes.Index | argparse_to_web/routes.py:13-47 | a GET renders the form; a POST renders the outcome of `handle_submission`, with `upload_file` as the uploader |
| Routes.Entries | argparse_to_web/routes.py:63-67 | one entry per listed file: its path under the output directory, stored under its own name |
| Routes.DownloadOf | argparse_to_web/routes.py:53-67 | nothing for an empty listing; the single file under its own name; otherwise `results.zip` in the output directory holding every listed file |
| Routes.Export | argparse_to_web/routes.py:50-71 | the route, with its zip-writing loop, computes `DownloadOf` |
| Routes.ArchiveHoldsListing | argparse_to_web/routes.py:59-67 | an archive holds every listed file, in listing order, under its own name |
| Routes.PathJoinInjective | argparse_to_web/routes.py:61-64 | joining one directory with relative names is injective |
| Routes.ArchiveAmongEntries | argparse_to_web/routes.py:59-67 | the archive is one of its own entries exactly when the listing holds a `results.zip` |
| App.Load | app.py:200-264 | the builder's exception propagates; otherwise the form, its fields (which all have the entries the translation reads), the checkbox names, printing all errors, and the destination `outdir` |
| App.NamelessPath | utils.py:8-9 | the path `upload_file` builds for an upload without a file name: the input directory with a trailing `/` |
| App.StoreEveryFile | app.py:305-311 | fails with `IsADirectoryError` on that path exactly when some upload has no file name; otherwise the stored paths of all uploads, in order |
| App.CollectEveryUpload | app.py:300-311 | fails with `IsADirectoryError` exactly when some file field has an upload without a file name; otherwise the stored paths of every file field, without skipping |
| App.AppOutcome | app.py:284-370 | an existing request directory raises; otherwise an upload without a file name raises `IsADirectoryError` before the API is called; otherwise the API's exception propagates, or the request directory is reported whatever the API wrote |
| App.NamelessUploadFailsOnlyInApp | app.py:300-370 | with an upload without a file name (and no existing request directory), app.py fails with `IsADirectoryError`, while the package can fail only by the API's own exception |
| App.Index | app.py:275-370 | a GET renders the form; a POST renders `AppOutcome` |
| App.Translate | app.py:312-344 | given the uploads app.py stored, its loops and comprehensions compute `AppKwargs` |
| App.Export | app.py:373-394 | app.py's `export` computes the same `DownloadOf` as the package's |

## Left out

- Flask itself: the application object, the blueprint, the request object,
  `render_template`, `send_file` and `serve`. A page is modelled by the
  arguments its template is rendered with, and a download by the file sent.
- The filesystem. The request directory is modelled by `existingDirs`, and
  only its own `mkdir` can fail (`FileExistsError`). A missing root and
  failures creating `input` and `output` are not modelled. Neither is
  creating `TEMP_FILES_ROOT_DIR` at start-up.
- `upload_file` and `secure_filename`: storing an upload is the parameter
  `upload`, a function of the directory and the file name. Overwriting an
  earlier file of the same name is not modelled. The one failure modelled
  is app.py's upload without a file name, which fails with
  `IsADirectoryError` and the text Linux gives it. A file name that
  `secure_filename` reduces to `''` (such as `'..'`) fails the same way in
  the source; that failure is not modelled, and such an upload is stored
  like any other.
- A `FileStorage` without a file name is modelled by `''`. A `None` file
  name is not modelled: in app.py it would make `secure_filename(None)`
  raise `TypeError` rather than `IsADirectoryError`, but a browser's form
  sends an empty file name, never `None`.
- Writing the zip file: an archive is its path and its list of entries.
- The Python API is a parameter. It is deterministic in its keyword
  arguments, and it reports the listing of the output directory after the
  call.
- `datetime.now()` is the parameter `now`, the text `str(now)` would give.
- The texts of the builder's exceptions (`NO_TITLE_ERR_MSG`,
  `COUNT_TYPE_ERR_MSG`) are not modelled: a build error is its kind,
  `ValueError`, `TypeError` or `KeyError` with its key. Of a submission's
  exceptions, only the Python API's text is a parameter. The texts of
  `FileExistsError` and `IsADirectoryError` are Linux's fixed formats, with
  the path quoted as `repr` quotes a path that holds no quote and no
  backslash; paths with those characters are not modelled.
- FormSpecProps.FinalKeys: the attributes copied from `dir(obj)` are those
  of an argparse action up to Python 3.8. From Python 3.9 `dir(obj)` also
  lists `format_usage`, and from 3.13 `deprecated`; the source would copy
  them too, and the deletion of `DEL_ATTRS` would leave them in. The model, and this
  lemma, assume Python 3.8 or earlier.
- Reflection over `parser._actions` and `dir(obj)`. The parser is an explicit
  list of actions with the public attributes argparse gives them. A metavar
  is a string (tuple metavars are not modelled), and an action type is `int`,
  `open` or some other callable.
- `request.form` is a map from each key to its first value. Repeated keys
  of a multi-dictionary are not modelled.
- The builder's `''` defaults for list and dictionary options are modelled
  as empty lists and maps, and a `None` title as `''`. These behave the same
  under the source's truthiness tests, but not under its `in` tests
  (argparse_to_web.py:153, 190 and 205, and app.py:114, 151 and 166): with the `''` default, a dest or
  option name that is itself `''` is found, because `'' in ''` is `True`,
  while in the model it is not found in an empty list. Such a dest or name is
  the only case where the two differ.
- `pmix.borrow`, the program app.py serves: its parser is a parameter of
  `App.Load`, and its API a parameter of `App.Index`.
- Python.Lower: ASCII letters only; Unicode case mapping is not modelled.
- Python.Capitalize: ASCII letters only, like `Lower`.
- Package.ArgparseToWeb.HandleSubmission: when the request directory already
  exists, the keyword arguments it returns are unspecified. The source raises
  before it builds them.
- Routes.DownloadOf: for an empty listing it gives `NoDownload`. The source's
  route then returns `None`, which Flask rejects; that error is not modelled.
- Package.ArgparseToWeb.constructor: the Flask application (`self.app`) and
  the Python API (`self.python_api`) are not fields. The API is passed to
  `HandleSubmission` instead.
