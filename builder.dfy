/**
 * `ArgparseToWeb.create_webform_spec` as the builder writes it: one loop per
 * stage over the list of field dictionaries, each updating the fields in
 * place or failing on the first bad field. Each stage is proved to compute
 * the stage function of module FormSpec, so the whole method computes
 * `FormSpec.BuildSpec`.
 */
module Builder {
  import opened Wrappers
  import opened Python
  import opened Argparse
  import opened FormSpec
  import Config

  lemma OptionDictsSnoc(xs: seq<Action>, a: Action, opts: Options)
    ensures OptionDicts(xs + [a], opts) ==
      OptionDicts(xs, opts) + (if Kept(a, opts) then [OptionDict(a)] else [])
  {
    assert (xs + [a])[..|xs|] == xs;
    assert (xs + [a])[|xs|] == a;
  }

  lemma PrefixRefs<T>(s: seq<T>, refs: seq<nat>)
    requires ValidRefs(s, refs)
    ensures forall j :: 0 <= j <= |refs| ==> ValidRefs(s, refs[..j])
  {
    forall j, x | 0 <= j <= |refs| && x in refs[..j] ensures x < |s| {
      assert x in refs;
    }
  }

  /** Stage 1: one option dictionary per action that is neither excluded nor ignored, in parser order. */
  method CollectOptions(actions: seq<Action>, opts: Options) returns (fields: seq<Field>)
    ensures fields == OptionDicts(actions, opts)
  {
    fields := [];
    for i := 0 to |actions|
      invariant fields == OptionDicts(actions[..i], opts)
    {
      var obj := actions[i];
      assert actions[..i + 1] == actions[..i] + [obj];
      OptionDictsSnoc(actions[..i], obj, opts);
      if Config.IsExcluded(obj.cliType) || obj.dest in opts.ignoreOptions {
        continue;
      }
      fields := fields + [OptionDict(obj)];
    }
    assert actions[..|actions|] == actions;
  }

  /** Stage 2: `name` from metavar or dest, lower-cased; `label` from the name or the override for the dest. */
  method NameAndLabel(s0: seq<Field>, labelOverrides: map<string, string>) returns (s: seq<Field>)
    ensures s == NameAll(s0, labelOverrides)
  {
    s := s0;
    for k := 0 to |s0|
      invariant |s| == |s0|
      invariant forall j :: 0 <= j < k ==> s[j] == WithNameAndLabel(s0[j], labelOverrides)
      invariant forall j :: k <= j < |s| ==> s[j] == s0[j]
    {
      var fld := s[k];
      var name := if fld.metavar.Some? && fld.metavar.value != "" then fld.metavar.value else fld.dest;
      name := Lower(name);
      var display := Capitalize(ReplaceChar(name, '_', ' '));
      if |labelOverrides| > 0 && fld.dest in labelOverrides {
        display := labelOverrides[fld.dest];
      }
      s := s[k := fld.(name := Some(name), labelText := Some(display))];
    }
  }

  /** Stage 3: the multi-value flag, and the limit an integer `nargs` sets. */
  method AddMultipleInput(s0: seq<Field>) returns (s: seq<Field>)
    ensures s == MultipleAll(s0)
  {
    s := s0;
    for k := 0 to |s0|
      invariant |s| == |s0|
      invariant forall j :: 0 <= j < k ==> s[j] == WithMultipleInput(s0[j])
      invariant forall j :: k <= j < |s| ==> s[j] == s0[j]
    {
      var fld := s[k];
      var multiple := Config.IsMultipleInputType(fld.cliType) || Truthy(fld.nargs);
      var limit := PyNone;
      if Truthy(fld.nargs) && fld.nargs.Int? {
        limit := fld.nargs;
      }
      s := s[k := fld.(multipleInput := Some(multiple), multipleInputHasLimit := Some(false),
                       multipleInputLimit := Some(limit))];
    }
  }

  /** Stage 4: record the declared type as `validation_type`; a count action must be untyped or `int`. */
  method ValidateAll(s0: seq<Field>) returns (r: Result<seq<Field>, BuildError>)
    ensures r == ValidateFrom(s0, 0)
  {
    var s := s0;
    for k := 0 to |s0|
      invariant |s| == |s0|
      invariant ValidateFrom(s0, 0) == ValidateFrom(s, k)
    {
      var fld := s[k].(validationType := Some(s[k].typeValue));
      if fld.cliType == COUNT {
        if Truthy(fld.typeValue) && fld.typeValue != TypeObj(IntClass) {
          return Err(CountTypeMismatch(fld.dest, fld.typeValue));
        }
        fld := fld.(typeValue := Str("int"));
      }
      s := s[k := fld];
    }
    return Ok(s);
  }

  /** Stage 5: `'file'` for `open` or an upload option; an untyped field takes its class's entry in `TYPE_CONVERSIONS`. */
  method ConvertAll(s0: seq<Field>, uploadOptions: seq<string>) returns (r: Result<seq<Field>, BuildError>)
    requires forall k :: 0 <= k < |s0| ==> IsNamed(s0[k])
    ensures r == ConvertFrom(s0, uploadOptions, 0)
  {
    var s := s0;
    for k := 0 to |s0|
      invariant |s| == |s0|
      invariant forall j :: 0 <= j < |s| ==> IsNamed(s[j])
      invariant ConvertFrom(s0, uploadOptions, 0) == ConvertFrom(s, uploadOptions, k)
    {
      var fld := s[k];
      if fld.typeValue == TypeObj(OpenFunction) || FieldName(fld) in uploadOptions {
        fld := fld.(typeValue := Str("file"));
      }
      if !Truthy(fld.typeValue) {
        if fld.cliType !in Config.TYPE_CONVERSIONS {
          return Err(KeyError(fld.cliType));
        }
        fld := fld.(typeValue := Str(Config.TYPE_CONVERSIONS[fld.cliType]));
      }
      s := s[k := fld];
    }
    return Ok(s);
  }

  /** Stage 6: when help overrides are given, replace the help of each field whose name has one. */
  method OverrideHelp(s0: seq<Field>, helpOverrides: map<string, string>) returns (s: seq<Field>)
    requires forall k :: 0 <= k < |s0| ==> IsNamed(s0[k])
    ensures s == HelpAll(s0, helpOverrides)
  {
    s := s0;
    if |helpOverrides| > 0 {
      for k := 0 to |s0|
        invariant |s| == |s0|
        invariant forall j :: 0 <= j < k ==> s[j] == WithHelpOverride(s0[j], helpOverrides)
        invariant forall j :: k <= j < |s| ==> s[j] == s0[j]
      {
        if FieldName(s[k]) !in helpOverrides {
          continue;
        }
        s := s[k := s[k].(help := Str(helpOverrides[FieldName(s[k])]))];
      }
    }
  }

  /** Stage 7: split the fields, in order, into those whose name is an advanced option and the rest. */
  method SplitAdvanced(s: seq<Field>, advancedOptions: seq<string>) returns (primary: seq<nat>, advanced: seq<nat>)
    requires forall k :: 0 <= k < |s| ==> IsNamed(s[k])
    ensures primary == RefsWhere(s, advancedOptions, false, |s|)
    ensures advanced == RefsWhere(s, advancedOptions, true, |s|)
  {
    primary, advanced := [], [];
    for k := 0 to |s|
      invariant primary == RefsWhere(s, advancedOptions, false, k)
      invariant advanced == RefsWhere(s, advancedOptions, true, k)
    {
      assert RefsWhere(s, advancedOptions, true, k + 1) ==
        advanced + (if FieldName(s[k]) in advancedOptions then [k] else []);
      assert RefsWhere(s, advancedOptions, false, k + 1) ==
        primary + (if FieldName(s[k]) !in advancedOptions then [k] else []);
      if FieldName(s[k]) in advancedOptions {
        advanced := advanced + [k];
      } else {
        primary := primary + [k];
      }
    }
  }

  /** Stage 8: for each listed name, every field of the list whose dest equals it. */
  method OrderFields(s: seq<Field>, names: seq<string>, refs: seq<nat>) returns (ordered: seq<nat>)
    requires ValidRefs(s, refs)
    ensures ordered == OrderRefs(s, names, refs)
  {
    PrefixRefs(s, refs);
    ordered := [];
    for i := 0 to |names|
      invariant ordered == OrderRefs(s, names[..i], refs)
    {
      assert names[..i + 1][..i] == names[..i];
      for j := 0 to |refs|
        invariant ordered == OrderRefs(s, names[..i], refs) + MatchingRefs(s, names[i], refs[..j])
      {
        assert refs[j] in refs;
        assert refs[..j + 1][..j] == refs[..j];
        assert MatchingRefs(s, names[i], refs[..j + 1]) ==
          MatchingRefs(s, names[i], refs[..j]) + (if s[refs[j]].dest == names[i] then [refs[j]] else []);
        if names[i] == s[refs[j]].dest {
          ordered := ordered + [refs[j]];
        }
      }
      assert refs[..|refs|] == refs;
      assert OrderRefs(s, names[..i + 1], refs) == OrderRefs(s, names[..i], refs) + MatchingRefs(s, names[i], refs);
    }
    assert names[..|names|] == names;
  }

  /** `for key in DEL_ATTRS: del fld[key]` on one dictionary. */
  method DeleteAttrs(d0: Dict) returns (r: Result<Dict, BuildError>)
    ensures r == DeleteKeys(d0, DEL_ATTRS)
  {
    var d := d0;
    for j := 0 to |DEL_ATTRS|
      invariant DeleteKeys(d0, DEL_ATTRS) == DeleteKeys(d, DEL_ATTRS[j..])
    {
      var key := DEL_ATTRS[j];
      if key !in d {
        return Err(KeyError(AttrName(key)));
      }
      assert DEL_ATTRS[j..][1..] == DEL_ATTRS[j + 1..];
      d := d - {key};
    }
    return Ok(d);
  }

  /** Stage 9: delete `DEL_ATTRS` from every primary field, then from every advanced one. */
  method StripLists(d0: seq<Dict>, primary: seq<nat>, advanced: seq<nat>) returns (r: Result<seq<Dict>, BuildError>)
    requires ValidRefs(d0, primary + advanced)
    ensures r == StripFrom(d0, primary + advanced, 0)
  {
    ghost var all := primary + advanced;
    var d := d0;
    for k := 0 to |primary|
      invariant |d| == |d0|
      invariant StripFrom(d0, all, 0) == StripFrom(d, all, k)
    {
      assert all[k] == primary[k] && all[k] in all;
      var g := DeleteAttrs(d[primary[k]]);
      assert StripFrom(d, all, k) == if g.Err? then Err(g.error) else StripFrom(d[primary[k] := g.value], all, k + 1);
      if g.Err? {
        return Err(g.error);
      }
      d := d[primary[k] := g.value];
    }
    for k := 0 to |advanced|
      invariant |d| == |d0|
      invariant StripFrom(d0, all, 0) == StripFrom(d, all, |primary| + k)
    {
      assert all[|primary| + k] == advanced[k] && advanced[k] in all;
      var g := DeleteAttrs(d[advanced[k]]);
      assert StripFrom(d, all, |primary| + k) ==
        if g.Err? then Err(g.error) else StripFrom(d[advanced[k] := g.value], all, |primary| + k + 1);
      if g.Err? {
        return Err(g.error);
      }
      d := d[advanced[k] := g.value];
    }
    return Ok(d);
  }

  /** Stages 1 to 6, stopping at the first exception. */
  method StageFields(parser: Parser, opts: Options) returns (r: Result<seq<Field>, BuildError>)
    ensures r == StagedFields(parser, opts)
  {
    var fields := CollectOptions(parser.actions, opts);
    fields := NameAndLabel(fields, opts.labelOverrides);
    fields := AddMultipleInput(fields);
    var validated := ValidateAll(fields);
    if validated.Err? {
      return Err(validated.error);
    }
    var converted := ConvertAll(validated.value, opts.uploadOptions);
    if converted.Err? {
      return Err(converted.error);
    }
    fields := OverrideHelp(converted.value, opts.helpOverrides);
    return Ok(fields);
  }

  /** Stages 7 to 9: partition, ordering and deletion of the internal attributes. */
  method ArrangeFields(fields: seq<Field>, opts: Options) returns (r: Result<(seq<Dict>, seq<Dict>), BuildError>)
    requires forall k :: 0 <= k < |fields| ==> IsNamed(fields[k]) && Complete(fields[k])
    ensures r == Arrange(fields, opts)
  {
    var orderedAdvancedOptions :=
      if |opts.advancedOptionOrder| > 0 then opts.advancedOptionOrder
      else if |opts.advancedOptions| > 0 then opts.advancedOptions
      else [];
    var primary, advanced := SplitAdvanced(fields, opts.advancedOptions);
    if |opts.optionOrder| > 0 {
      primary := OrderFields(fields, opts.optionOrder, primary);
    }
    advanced := OrderFields(fields, orderedAdvancedOptions, advanced);
    assert primary == PrimaryRefs(fields, opts) && advanced == AdvancedRefs(fields, opts);
    var dicts := AsDicts(fields);
    assert ValidRefs(dicts, primary + advanced);
    var stripped := StripLists(dicts, primary, advanced);
    if stripped.Err? {
      return Err(stripped.error);
    }
    return Ok((Deref(stripped.value, primary), Deref(stripped.value, advanced)));
  }

  /** The builder: the title check, then stages 1 to 9 in order, stopping at the first exception. */
  method CreateWebformSpec(parser: Parser, opts: Options) returns (r: Result<WebformSpec, BuildError>)
    ensures r == BuildSpec(parser, opts)
  {
    var title :=
      if opts.title != "" then opts.title
      else if parser.prog.Some? && parser.prog.value != "" then parser.prog.value
      else "";
    if title == "" {
      return Err(NoTitle);
    }
    var subtitle :=
      if opts.subtitle != "" then opts.subtitle
      else if parser.description.Some? && parser.description.value != "" then parser.description.value
      else "";
    var staged := StageFields(parser, opts);
    if staged.Err? {
      return Err(staged.error);
    }
    var arranged := ArrangeFields(staged.value, opts);
    if arranged.Err? {
      return Err(arranged.error);
    }
    return Ok(WebformSpec(title, subtitle, arranged.value.0, arranged.value.1));
  }
}
