/** What the translation of a submission promises, stated over the whole pipeline. */
module SubmissionProps {
  import opened Wrappers
  import opened Python
  import opened FormSpec
  import opened Submission

  // ---------------------------------------------------------------------------
  // Stored uploads

  /** Without skipping, every upload is stored, in order. */
  lemma {:induction false} StoredPathsAll(fileNames: seq<string>, upload: string -> string)
    ensures |StoredPaths(fileNames, upload, false)| == |fileNames|
    ensures forall i :: 0 <= i < |fileNames| ==> StoredPaths(fileNames, upload, false)[i] == upload(fileNames[i])
  {
    if fileNames != [] {
      var n := |fileNames| - 1;
      StoredPathsAll(fileNames[..n], upload);
    }
  }

  /** The uploads that carry a file name, in order. */
  function NamedFiles(fileNames: seq<string>): (r: seq<string>)
    ensures forall i :: 0 <= i < |r| ==> r[i] != "" && r[i] in fileNames
    ensures forall f :: f in fileNames && f != "" ==> f in r
  {
    if fileNames == [] then []
    else
      var n := |fileNames| - 1;
      var pre := NamedFiles(fileNames[..n]);
      assert forall f :: f in fileNames[..n] ==> f in fileNames;
      assert forall f :: f in fileNames ==> f in fileNames[..n] || f == fileNames[n];
      pre + (if fileNames[n] == "" then [] else [fileNames[n]])
  }

  /** Skipping stores exactly the uploads that carry a file name. */
  lemma {:induction false} StoredPathsSkip(fileNames: seq<string>, upload: string -> string)
    ensures StoredPaths(fileNames, upload, true) == StoredPaths(NamedFiles(fileNames), upload, false)
  {
    if fileNames != [] {
      var n := |fileNames| - 1;
      StoredPathsSkip(fileNames[..n], upload);
      var pre := NamedFiles(fileNames[..n]);
      if fileNames[n] != "" {
        var named := pre + [fileNames[n]];
        assert NamedFiles(fileNames) == named;
        assert named[..|named| - 1] == pre;
        assert StoredPaths(named, upload, false) == StoredPaths(pre, upload, false) + [upload(fileNames[n])];
      } else {
        assert NamedFiles(fileNames) == pre;
      }
    }
  }

  // ---------------------------------------------------------------------------
  // The package's translation

  /** The value a kept key is handed: a checkbox coerced to a boolean, then multi-value text split. */
  function Handed(fields: seq<Dict>, checkboxOptions: seq<string>, pre: Kwargs, k: string): Value
    requires AreFormFields(fields) && k in pre && LastFieldNamed(fields, k).Some?
  {
    FieldValue(fields, k, if k in checkboxOptions then Bool(pre[k] == Str("on")) else pre[k])
  }

  /**
   * The keyword arguments of `handle_submission`: the destination is always
   * there and points at the output directory; any other key is there exactly
   * when it names a field and its merged value is truthy.
   */
  lemma PackageKwargsShape(fields: seq<Dict>, checkboxOptions: seq<string>, req: Request,
                           upload: string -> string, sendFilesParam: string, outputDir: string, k: string)
    requires AreFormFields(fields)
    ensures var kw := PackageKwargs(fields, checkboxOptions, req, upload, sendFilesParam, outputDir);
      sendFilesParam in kw && kw[sendFilesParam] == Str(outputDir)
    ensures var kw := PackageKwargs(fields, checkboxOptions, req, upload, sendFilesParam, outputDir);
      var pre := Merged(fields, req, upload, true);
      k != sendFilesParam ==>
        (k in kw <==> k in pre && Truthy(pre[k]) && LastFieldNamed(fields, k).Some?)
    ensures var kw := PackageKwargs(fields, checkboxOptions, req, upload, sendFilesParam, outputDir);
      var pre := Merged(fields, req, upload, true);
      k != sendFilesParam && k in kw ==>
        k in pre && LastFieldNamed(fields, k).Some? && kw[k] == Handed(fields, checkboxOptions, pre, k)
  {
    var pre := Merged(fields, req, upload, true);
    var coerced := CoerceCheckboxes(DropFalsy(pre), checkboxOptions);
    var kept := KeepFieldValues(coerced, fields);
    assert PackageKwargs(fields, checkboxOptions, req, upload, sendFilesParam, outputDir) ==
      kept[sendFilesParam := Str(outputDir)];
    if k != sendFilesParam && k in kept {
      assert kept[k] == FieldValue(fields, k, coerced[k]);
      assert coerced[k] == if k in checkboxOptions then Bool(pre[k] == Str("on")) else pre[k];
    }
  }

  /** Every key handed to the Python API, other than the destination, is the name of a field. */
  lemma PackageKeysAreFieldNames(fields: seq<Dict>, checkboxOptions: seq<string>, req: Request,
                                 upload: string -> string, sendFilesParam: string, outputDir: string, k: string)
    requires AreFormFields(fields)
    requires k in PackageKwargs(fields, checkboxOptions, req, upload, sendFilesParam, outputDir)
    ensures k == sendFilesParam || exists i :: 0 <= i < |fields| && NameOfField(fields[i]) == k
  {
    PackageKwargsShape(fields, checkboxOptions, req, upload, sendFilesParam, outputDir, k);
  }

  /** A checkbox is handed `True` exactly when the form sent `'on'` for it. */
  lemma PackageCheckbox(fields: seq<Dict>, checkboxOptions: seq<string>, req: Request,
                        upload: string -> string, sendFilesParam: string, outputDir: string, k: string)
    requires AreFormFields(fields)
    requires k in checkboxOptions && k != sendFilesParam
    requires k in PackageKwargs(fields, checkboxOptions, req, upload, sendFilesParam, outputDir)
    ensures PackageKwargs(fields, checkboxOptions, req, upload, sendFilesParam, outputDir)[k] ==
      Bool(k in req.form && req.form[k] == "on")
  {
    PackageKwargsShape(fields, checkboxOptions, req, upload, sendFilesParam, outputDir, k);
  }

  /** An unticked checkbox (absent from the form) is not handed to the Python API at all. */
  lemma PackageUnticked(fields: seq<Dict>, checkboxOptions: seq<string>, req: Request,
                        upload: string -> string, sendFilesParam: string, outputDir: string, k: string)
    requires AreFormFields(fields)
    requires k != sendFilesParam && k !in req.form && k !in FileFieldNames(fields)
    ensures k !in PackageKwargs(fields, checkboxOptions, req, upload, sendFilesParam, outputDir)
  {
    PackageKwargsShape(fields, checkboxOptions, req, upload, sendFilesParam, outputDir, k);
  }

  /**
   * A multi-value text field is handed a list of space-free pieces whose
   * join with single spaces gives back the text typed.
   */
  lemma PackageMultiValue(fields: seq<Dict>, checkboxOptions: seq<string>, req: Request,
                          upload: string -> string, sendFilesParam: string, outputDir: string, k: string)
    requires AreFormFields(fields)
    requires k != sendFilesParam && k !in checkboxOptions && k in req.form
    requires LastFieldNamed(fields, k).Some? && Truthy(LastFieldNamed(fields, k).value[MultipleInput])
    requires k in PackageKwargs(fields, checkboxOptions, req, upload, sendFilesParam, outputDir)
    ensures var v := PackageKwargs(fields, checkboxOptions, req, upload, sendFilesParam, outputDir)[k];
      v.StrList? && Join(v.items, ' ') == req.form[k] && forall i :: 0 <= i < |v.items| ==> ' ' !in v.items[i]
  {
    PackageKwargsShape(fields, checkboxOptions, req, upload, sendFilesParam, outputDir, k);
    JoinSplit(req.form[k], ' ');
  }

  // ---------------------------------------------------------------------------
  // The application's translation

  /** app.py's translation: the destination passes the same filters as any form value. */
  lemma AppKwargsShape(fields: seq<Dict>, checkboxOptions: seq<string>, req: Request,
                       upload: string -> string, sendFilesParam: string, outputDir: string, k: string)
    requires AreFormFields(fields)
    ensures var kw := AppKwargs(fields, checkboxOptions, req, upload, sendFilesParam, outputDir);
      var pre := Merged(fields, req, upload, false)[sendFilesParam := Str(outputDir)];
      (k in kw <==> k in pre && Truthy(pre[k]) && LastFieldNamed(fields, k).Some?) &&
      (k in kw ==> kw[k] == Handed(fields, checkboxOptions, pre, k))
  {
    var pre := Merged(fields, req, upload, false)[sendFilesParam := Str(outputDir)];
    var coerced := CoerceCheckboxes(DropFalsy(pre), checkboxOptions);
    if k in KeepFieldValues(coerced, fields) {
      assert coerced[k] == if k in checkboxOptions then Bool(pre[k] == Str("on")) else pre[k];
    }
  }

  /** app.py hands the destination over only when some field bears its name. */
  lemma AppDestination(fields: seq<Dict>, checkboxOptions: seq<string>, req: Request,
                       upload: string -> string, sendFilesParam: string, outputDir: string)
    requires AreFormFields(fields) && outputDir != ""
    ensures sendFilesParam in AppKwargs(fields, checkboxOptions, req, upload, sendFilesParam, outputDir) <==>
      exists i :: 0 <= i < |fields| && NameOfField(fields[i]) == sendFilesParam
  {
    AppKwargsShape(fields, checkboxOptions, req, upload, sendFilesParam, outputDir, sendFilesParam);
  }

  /** Every key app.py hands to the Python API is the name of a field. */
  lemma AppKeysAreFieldNames(fields: seq<Dict>, checkboxOptions: seq<string>, req: Request,
                             upload: string -> string, sendFilesParam: string, outputDir: string, k: string)
    requires AreFormFields(fields)
    requires k in AppKwargs(fields, checkboxOptions, req, upload, sendFilesParam, outputDir)
    ensures exists i :: 0 <= i < |fields| && NameOfField(fields[i]) == k
  {
    AppKwargsShape(fields, checkboxOptions, req, upload, sendFilesParam, outputDir, k);
  }

  /** When no file field has an upload without a file name, both translations hand over the same values apart from the destination. */
  lemma SameTranslationWithoutEmptyUploads(fields: seq<Dict>, checkboxOptions: seq<string>, req: Request,
                                           upload: string -> string, sendFilesParam: string, outputDir: string, k: string)
    requires AreFormFields(fields) && k != sendFilesParam
    requires !HasNamelessUpload(fields, req)
    ensures k in PackageKwargs(fields, checkboxOptions, req, upload, sendFilesParam, outputDir) <==>
      k in AppKwargs(fields, checkboxOptions, req, upload, sendFilesParam, outputDir)
    ensures k in AppKwargs(fields, checkboxOptions, req, upload, sendFilesParam, outputDir) ==>
      PackageKwargs(fields, checkboxOptions, req, upload, sendFilesParam, outputDir)[k] ==
      AppKwargs(fields, checkboxOptions, req, upload, sendFilesParam, outputDir)[k]
  {
    PackageKwargsShape(fields, checkboxOptions, req, upload, sendFilesParam, outputDir, k);
    AppKwargsShape(fields, checkboxOptions, req, upload, sendFilesParam, outputDir, k);
    MergedAgree(fields, req, upload, k);
  }

  /** Without nameless uploads, skipping them changes nothing in the merged submission. */
  lemma MergedAgree(fields: seq<Dict>, req: Request, upload: string -> string, k: string)
    requires AreFormFields(fields) && !HasNamelessUpload(fields, req)
    ensures k in Merged(fields, req, upload, true) <==> k in Merged(fields, req, upload, false)
    ensures k in Merged(fields, req, upload, true) ==> Merged(fields, req, upload, true)[k] == Merged(fields, req, upload, false)[k]
  {
    if k !in req.form && k in FileFieldNames(fields) {
      var fs := FileList(req, k);
      var i :| 0 <= i < |fields| && IsFileField(fields[i]) && NameOfField(fields[i]) == k;
      assert "" !in fs;
      NoEmptyNamesKept(fs);
      StoredPathsSkip(fs, upload);
    }
  }

  lemma {:induction false} NoEmptyNamesKept(fileNames: seq<string>)
    requires "" !in fileNames
    ensures NamedFiles(fileNames) == fileNames
  {
    if fileNames != [] {
      var n := |fileNames| - 1;
      assert fileNames[..n] + [fileNames[n]] == fileNames;
      assert forall f :: f in fileNames[..n] ==> f in fileNames;
      NoEmptyNamesKept(fileNames[..n]);
    }
  }
}
