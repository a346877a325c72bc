/**
 * The translation of a web-form submission into the keyword arguments the
 * command's Python API is called with (`ArgparseToWeb.handle_submission` and
 * the POST branch of app.py's `index`). The form's text values and the upload
 * lists are plain maps; storing an upload into the request's input directory
 * is a function from its file name to the path it is stored under.
 */
module Submission {
  import opened Wrappers
  import opened Python
  import opened FormSpec

  /** Keyword arguments: argument name to value. */
  type Kwargs = map<string, Value>

  /** A submitted form: `request.form` (first value per key) and, per input name, the file names of `request.files.getlist`. */
  datatype Request = Request(form: map<string, string>, files: map<string, seq<string>>)

  /** A field of the form specification, with the three entries the translation reads. */
  predicate IsFormField(d: Dict)
  {
    Name in d && d[Name].Str? && Type in d && MultipleInput in d
  }

  predicate AreFormFields(fields: seq<Dict>)
  {
    forall i :: 0 <= i < |fields| ==> IsFormField(fields[i])
  }

  function NameOfField(d: Dict): string
    requires IsFormField(d)
  {
    d[Name].s
  }

  predicate IsFileField(d: Dict)
    requires IsFormField(d)
  {
    d[Type] == Str("file")
  }

  /** `request.files.getlist(name)`: no list is an empty list. */
  function FileList(req: Request, name: string): seq<string>
  {
    if name in req.files then req.files[name] else []
  }

  /**
   * `upload_file(file, upload_dir)`, given the directory and the upload's
   * file name: the path the upload is stored under.
   */
  type Uploader = (string, string) -> string

  /** Storing uploads into one directory, by file name. */
  function StoreIn(upload: Uploader, dir: string): string -> string
  {
    name => upload(dir, name)
  }

  /** Some file field received an upload without a file name. */
  predicate HasNamelessUpload(fields: seq<Dict>, req: Request)
    requires AreFormFields(fields)
  {
    exists i :: 0 <= i < |fields| && IsFileField(fields[i]) && "" in FileList(req, NameOfField(fields[i]))
  }

  // ---------------------------------------------------------------------------
  // Upload paths

  /** The names of the file fields. */
  function FileFieldNames(fields: seq<Dict>): (names: set<string>)
    requires AreFormFields(fields)
    ensures forall n :: n in names <==> exists i :: 0 <= i < |fields| && IsFileField(fields[i]) && NameOfField(fields[i]) == n
  {
    set i | 0 <= i < |fields| && IsFileField(fields[i]) :: NameOfField(fields[i])
  }

  /** The stored paths of a list of uploads; with `skipEmpty`, uploads without a file name are not stored. */
  function StoredPaths(fileNames: seq<string>, upload: string -> string, skipEmpty: bool): (paths: seq<string>)
  {
    if fileNames == [] then []
    else
      var n := |fileNames| - 1;
      StoredPaths(fileNames[..n], upload, skipEmpty) +
        (if skipEmpty && fileNames[n] == "" then [] else [upload(fileNames[n])])
  }

  /** Every file field gets the list of its stored paths, possibly empty. */
  function Uploads(fields: seq<Dict>, req: Request, upload: string -> string, skipEmpty: bool): Kwargs
    requires AreFormFields(fields)
  {
    map n | n in FileFieldNames(fields) :: StrList(StoredPaths(FileList(req, n), upload, skipEmpty))
  }

  /** The upload loop over one field's files. */
  method StoreFiles(fileNames: seq<string>, upload: string -> string, skipEmpty: bool) returns (paths: seq<string>)
    ensures paths == StoredPaths(fileNames, upload, skipEmpty)
  {
    paths := [];
    for j := 0 to |fileNames|
      invariant paths == StoredPaths(fileNames[..j], upload, skipEmpty)
    {
      assert fileNames[..j + 1][..j] == fileNames[..j];
      if skipEmpty && fileNames[j] == "" {
        continue;
      }
      paths := paths + [upload(fileNames[j])];
    }
    assert fileNames[..|fileNames|] == fileNames;
  }

  /** The names of the file fields among the first `i` fields. */
  function FileFieldNamesUpTo(fields: seq<Dict>, i: nat): set<string>
    requires AreFormFields(fields) && i <= |fields|
  {
    set j | 0 <= j < i && IsFileField(fields[j]) :: NameOfField(fields[j])
  }

  /** The upload lists of the file fields among the first `i` fields. */
  function UploadsUpTo(fields: seq<Dict>, req: Request, upload: string -> string, skipEmpty: bool, i: nat): Kwargs
    requires AreFormFields(fields) && i <= |fields|
  {
    map n | n in FileFieldNamesUpTo(fields, i) :: StrList(StoredPaths(FileList(req, n), upload, skipEmpty))
  }

  lemma UploadsUpToStep(fields: seq<Dict>, req: Request, upload: string -> string, skipEmpty: bool, i: nat)
    requires AreFormFields(fields) && i < |fields|
    ensures !IsFileField(fields[i]) ==>
      UploadsUpTo(fields, req, upload, skipEmpty, i + 1) == UploadsUpTo(fields, req, upload, skipEmpty, i)
    ensures IsFileField(fields[i]) ==>
      var n := NameOfField(fields[i]);
      UploadsUpTo(fields, req, upload, skipEmpty, i + 1) ==
        UploadsUpTo(fields, req, upload, skipEmpty, i)[n := StrList(StoredPaths(FileList(req, n), upload, skipEmpty))]
  {
    if IsFileField(fields[i]) {
      assert FileFieldNamesUpTo(fields, i + 1) == FileFieldNamesUpTo(fields, i) + {NameOfField(fields[i])};
    } else {
      assert FileFieldNamesUpTo(fields, i + 1) == FileFieldNamesUpTo(fields, i);
    }
  }

  /** `upload_option_file_paths`: for each file field in turn, a fresh list filled with its stored paths. */
  method CollectUploads(fields: seq<Dict>, req: Request, upload: string -> string, skipEmpty: bool)
    returns (paths: Kwargs)
    requires AreFormFields(fields)
    ensures paths == Uploads(fields, req, upload, skipEmpty)
  {
    paths := map[];
    for i := 0 to |fields|
      invariant paths == UploadsUpTo(fields, req, upload, skipEmpty, i)
    {
      UploadsUpToStep(fields, req, upload, skipEmpty, i);
      var fld := fields[i];
      if !IsFileField(fld) {
        continue;
      }
      var option := NameOfField(fld);
      var stored := StoreFiles(FileList(req, option), upload, skipEmpty);
      paths := paths[option := StrList(stored)];
    }
    assert FileFieldNamesUpTo(fields, |fields|) == FileFieldNames(fields);
  }

  // ---------------------------------------------------------------------------
  // The dictionary comprehensions

  /** The form's text values as keyword values. */
  function FormValues(req: Request): Kwargs
  {
    map k | k in req.form :: Str(req.form[k])
  }

  /** The uploads merged with the form's values; a form value overrides an upload list of the same name. */
  function Merged(fields: seq<Dict>, req: Request, upload: string -> string, skipEmpty: bool): (r: Kwargs)
    requires AreFormFields(fields)
    ensures forall k :: k in r <==> k in req.form || k in FileFieldNames(fields)
    ensures forall k :: k in req.form ==> r[k] == Str(req.form[k])
    ensures forall k :: k !in req.form && k in FileFieldNames(fields) ==>
      r[k] == StrList(StoredPaths(FileList(req, k), upload, skipEmpty))
  {
    Uploads(fields, req, upload, skipEmpty) + FormValues(req)
  }

  /** `{k: v for k, v in m.items() if v}`. */
  function DropFalsy(m: Kwargs): (r: Kwargs)
    ensures forall k :: k in r <==> k in m && Truthy(m[k])
    ensures forall k :: k in r ==> r[k] == m[k]
  {
    map k | k in m && Truthy(m[k]) :: m[k]
  }

  /** Checkbox values become `True` exactly when they are `'on'`; empty values are dropped. */
  function CoerceCheckboxes(m: Kwargs, checkboxOptions: seq<string>): (r: Kwargs)
    ensures forall k :: k in r <==> k in m && Truthy(m[k])
    ensures forall k :: k in r && k in checkboxOptions ==> r[k] == Bool(m[k] == Str("on"))
    ensures forall k :: k in r && k !in checkboxOptions ==> r[k] == m[k]
  {
    map k | k in m && Truthy(m[k]) :: if k !in checkboxOptions then m[k] else Bool(m[k] == Str("on"))
  }

  // ---------------------------------------------------------------------------
  // Keeping the values of fields, splitting multi-value text

  /** The last field named `k`: the inner loop assigns for every field of that name, so the last one decides. */
  function LastFieldNamed(fields: seq<Dict>, k: string): (r: Option<Dict>)
    requires AreFormFields(fields)
    ensures r.None? <==> forall i :: 0 <= i < |fields| ==> NameOfField(fields[i]) != k
    ensures r.Some? ==> IsFormField(r.value) && NameOfField(r.value) == k && r.value in fields
  {
    if fields == [] then None
    else
      var n := |fields| - 1;
      if NameOfField(fields[n]) == k then Some(fields[n])
      else
        var r := LastFieldNamed(fields[..n], k);
        assert forall i :: 0 <= i < n ==> fields[..n][i] == fields[i];
        assert r.Some? ==> r.value in fields;
        r
  }

  /** No field after position `i` bears the name `k`. */
  predicate NoneNamedAfter(fields: seq<Dict>, i: nat, k: string)
    requires AreFormFields(fields)
  {
    forall j :: i < j < |fields| ==> NameOfField(fields[j]) != k
  }

  /** The field found bears the name, and no later field does. */
  lemma {:induction false} LastFieldNamedIsLast(fields: seq<Dict>, k: string)
    requires AreFormFields(fields) && LastFieldNamed(fields, k).Some?
    ensures exists i :: 0 <= i < |fields| && fields[i] == LastFieldNamed(fields, k).value && NoneNamedAfter(fields, i, k)
  {
    var n := |fields| - 1;
    if NameOfField(fields[n]) == k {
      assert fields[n] == LastFieldNamed(fields, k).value && NoneNamedAfter(fields, n, k);
    } else {
      var pre := fields[..n];
      assert LastFieldNamed(fields, k) == LastFieldNamed(pre, k);
      LastFieldNamedIsLast(pre, k);
      var i :| 0 <= i < |pre| && pre[i] == LastFieldNamed(pre, k).value && NoneNamedAfter(pre, i, k);
      assert fields[i] == pre[i];
      assert forall j :: i < j < n ==> fields[j] == pre[j];
      assert NoneNamedAfter(fields, i, k);
    }
  }

  /** A multi-value field's text is split on single spaces; lists and booleans pass unchanged. */
  function SplitValue(v: Value, multiple: bool): (r: Value)
    ensures multiple && v.Str? ==> r == StrList(Split(v.s, ' '))
    ensures !(multiple && v.Str?) ==> r == v
  {
    if multiple && v.Str? then StrList(Split(v.s, ' ')) else v
  }

  function FieldValue(fields: seq<Dict>, k: string, v: Value): Value
    requires AreFormFields(fields) && LastFieldNamed(fields, k).Some?
  {
    SplitValue(v, Truthy(LastFieldNamed(fields, k).value[MultipleInput]))
  }

  /** The values whose key names a field. */
  function KeepFieldValues(m: Kwargs, fields: seq<Dict>): (r: Kwargs)
    requires AreFormFields(fields)
    ensures forall k :: k in r <==> k in m && LastFieldNamed(fields, k).Some?
    ensures forall k :: k in r ==> r[k] == FieldValue(fields, k, m[k])
  {
    map k | k in m && LastFieldNamed(fields, k).Some? :: FieldValue(fields, k, m[k])
  }

  /** The inner loop for one key: every field with that name assigns the value. */
  method ValueForKey(fields: seq<Dict>, k: string, v: Value) returns (found: bool, value: Value)
    requires AreFormFields(fields)
    ensures found <==> LastFieldNamed(fields, k).Some?
    ensures found ==> value == FieldValue(fields, k, v)
  {
    found, value := false, v;
    for i := 0 to |fields|
      invariant found <==> LastFieldNamed(fields[..i], k).Some?
      invariant found ==> value == FieldValue(fields[..i], k, v)
    {
      assert fields[..i + 1][..i] == fields[..i];
      var fld := fields[i];
      if k == NameOfField(fld) {
        if Truthy(fld[MultipleInput]) && v.Str? {
          value := StrList(Split(v.s, ' '));
        } else {
          value := v;
        }
        found := true;
      }
    }
    assert fields[..|fields|] == fields;
  }

  /** The values kept for the keys in `done`. */
  function KeptFor(m: Kwargs, fields: seq<Dict>, done: set<string>): Kwargs
    requires AreFormFields(fields)
  {
    map k | k in m && k in done && LastFieldNamed(fields, k).Some? :: FieldValue(fields, k, m[k])
  }

  lemma KeptForStep(m: Kwargs, fields: seq<Dict>, done: set<string>, k: string)
    requires AreFormFields(fields) && k in m
    ensures LastFieldNamed(fields, k).Some? ==>
      KeptFor(m, fields, done + {k}) == KeptFor(m, fields, done)[k := FieldValue(fields, k, m[k])]
    ensures LastFieldNamed(fields, k).None? ==> KeptFor(m, fields, done + {k}) == KeptFor(m, fields, done)
  {
    var before := KeptFor(m, fields, done);
    var after := KeptFor(m, fields, done + {k});
    if LastFieldNamed(fields, k).Some? {
      var expected := before[k := FieldValue(fields, k, m[k])];
      assert forall x :: x in after <==> x in expected;
      assert forall x :: x in after ==> after[x] == expected[x];
    } else {
      assert forall x :: x in after <==> x in before;
      assert forall x :: x in after ==> after[x] == before[x];
    }
  }

  /** `for k, v in m.items(): for fld in fields: if k == fld['name']: ...`. */
  method RebuildForFields(m: Kwargs, fields: seq<Dict>) returns (kwargs: Kwargs)
    requires AreFormFields(fields)
    ensures kwargs == KeepFieldValues(m, fields)
  {
    kwargs := map[];
    var todo := m.Keys;
    while todo != {}
      invariant todo <= m.Keys
      invariant kwargs == KeptFor(m, fields, m.Keys - todo)
      decreases todo
    {
      var k :| k in todo;
      KeptForStep(m, fields, m.Keys - todo, k);
      assert m.Keys - (todo - {k}) == (m.Keys - todo) + {k};
      var found, value := ValueForKey(fields, k, m[k]);
      if found {
        kwargs := kwargs[k := value];
      }
      todo := todo - {k};
    }
    assert KeptFor(m, fields, m.Keys) == KeepFieldValues(m, fields);
  }

  // ---------------------------------------------------------------------------
  // The two variants of the whole translation

  /**
   * `handle_submission`: uploads (skipping nameless ones), overridden by the
   * form's values; falsy values dropped; checkboxes coerced; only values of
   * fields kept, multi-value text split; the destination added last.
   */
  function PackageKwargs(fields: seq<Dict>, checkboxOptions: seq<string>, req: Request,
                         upload: string -> string, sendFilesParam: string, outputDir: string): Kwargs
    requires AreFormFields(fields)
  {
    var pre := Merged(fields, req, upload, true);
    KeepFieldValues(CoerceCheckboxes(DropFalsy(pre), checkboxOptions), fields)[sendFilesParam := Str(outputDir)]
  }

  /**
   * app.py's `index`: every upload stored, and the destination inserted
   * before the filters, so it survives only if a field bears its name.
   */
  function AppKwargs(fields: seq<Dict>, checkboxOptions: seq<string>, req: Request,
                     upload: string -> string, sendFilesParam: string, outputDir: string): Kwargs
    requires AreFormFields(fields)
  {
    var pre := Merged(fields, req, upload, false)[sendFilesParam := Str(outputDir)];
    KeepFieldValues(CoerceCheckboxes(DropFalsy(pre), checkboxOptions), fields)
  }
}
