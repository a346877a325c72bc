/**
 * What the form-spec builder promises, stated over the actions of the
 * parser and the builder's options, and proved about module FormSpec.
 */
module FormSpecProps {
  import opened Wrappers
  import opened Python
  import opened Argparse
  import opened FormSpec
  import Config

  // ---------------------------------------------------------------------------
  // Title and subtitle

  /** The build fails for want of a title exactly when neither the option nor `prog` gives one. */
  lemma TitleRule(parser: Parser, opts: Options)
    ensures BuildSpec(parser, opts) == Err(NoTitle) <==>
      opts.title == "" && (parser.prog.None? || parser.prog.value == "")
    ensures BuildSpec(parser, opts).Ok? ==>
      && BuildSpec(parser, opts).value.title ==
        (if opts.title != "" then opts.title else parser.prog.value)
      && BuildSpec(parser, opts).value.subtitle ==
        (if opts.subtitle != "" then opts.subtitle
         else if parser.description.Some? then parser.description.value
         else "")
  {
  }

  // ---------------------------------------------------------------------------
  // One action's field

  /** `metavar` if it is a non-empty string, else `dest`, lower-cased. */
  function ActionName(a: Action): string
  {
    Lower(if a.metavar.Some? && a.metavar.value != "" then a.metavar.value else a.dest)
  }

  /** Name, label and help of a built field. The label is keyed by dest, the help by name. */
  lemma FieldNameLabelHelp(a: Action, opts: Options)
    requires FieldOf(a, opts).Ok?
    ensures var g := AsDict(FieldOf(a, opts).value);
      && g[Name] == Str(ActionName(a))
      && g[Label] == Str(
        if |opts.labelOverrides| > 0 && a.dest in opts.labelOverrides then opts.labelOverrides[a.dest]
        else Capitalize(ReplaceChar(ActionName(a), '_', ' ')))
      && g[Help] == (
        if |opts.helpOverrides| > 0 && ActionName(a) in opts.helpOverrides
        then Str(opts.helpOverrides[ActionName(a)])
        else OptionalStr(a.help))
  {
    var f1 := WithNameAndLabel(OptionDict(a), opts.labelOverrides);
    var f2 := WithMultipleInput(f1);
    var f4 := Convert(Validate(f2).value, opts.uploadOptions).value;
    assert f1.name == Some(ActionName(a));
    assert f4.name == f1.name && f4.labelText == f1.labelText && f4.help == OptionalStr(a.help);
  }

  /** The multi-value flag and its limit. */
  lemma FieldMultipleInput(a: Action, opts: Options)
    requires FieldOf(a, opts).Ok?
    ensures var g := AsDict(FieldOf(a, opts).value);
      && g[MultipleInput] == Bool(
        || a.cliType == APPEND || a.cliType == APPEND_CONST
        || (a.nargs.Fixed? && a.nargs.n != 0) || (a.nargs.Pattern? && a.nargs.p != ""))
      && g[MultipleInputHasLimit] == Bool(false)
      && g[MultipleInputLimit] == (if a.nargs.Fixed? && a.nargs.n != 0 then Int(a.nargs.n) else PyNone)
  {
  }

  /** A count action whose declared type is set and is not `int` is a TypeError, and nothing else is. */
  lemma CountTypeCheck(a: Action, opts: Options)
    ensures FieldOf(a, opts).Err? && FieldOf(a, opts).error.CountTypeMismatch? <==>
      a.cliType == COUNT && a.declaredType.Some? && a.declaredType != Some(IntClass)
  {
  }

  /** The web-form type of a field: `'file'`, else `'int'` for a count, else the declared type, else the class's fallback. */
  lemma FieldType(a: Action, opts: Options)
    requires !(a.cliType == COUNT && a.declaredType.Some? && a.declaredType != Some(IntClass))
    ensures var file := a.declaredType == Some(OpenFunction) || ActionName(a) in opts.uploadOptions;
      && (FieldOf(a, opts).Err? <==>
           !file && a.cliType != COUNT && a.declaredType.None? && Config.Fallback(a.cliType).None?)
      && (FieldOf(a, opts).Err? ==> FieldOf(a, opts).error == KeyError(a.cliType))
      && (FieldOf(a, opts).Ok? ==>
           && AsDict(FieldOf(a, opts).value)[ValidationType] == TypeValue(a.declaredType)
           && AsDict(FieldOf(a, opts).value)[Type] == (
             if file then Str("file")
             else if a.cliType == COUNT then Str("int")
             else if a.declaredType.Some? then TypeObj(a.declaredType.value)
             else Str(Config.Fallback(a.cliType).value)))
  {
    var f2 := WithMultipleInput(WithNameAndLabel(OptionDict(a), opts.labelOverrides));
    assert f2.name == Some(ActionName(a)) && f2.typeValue == TypeValue(a.declaredType);
    if FieldOf(a, opts).Ok? {
      var f3 := Validate(f2).value;
      assert f3.validationType == Some(TypeValue(a.declaredType));
      assert Convert(f3, opts.uploadOptions).value.validationType == f3.validationType;
    }
  }

  /** An append-const option with no declared type and no upload entry is a multi-value checkbox. */
  lemma UntypedAppendConstIsMultipleCheckbox(a: Action, opts: Options)
    requires a.cliType == APPEND_CONST && a.declaredType.None? && ActionName(a) !in opts.uploadOptions
    ensures FieldOf(a, opts).Ok?
    ensures AsDict(FieldOf(a, opts).value)[MultipleInput] == Bool(true)
    ensures AsDict(FieldOf(a, opts).value)[Type] == Str("checkbox")
  {
    CountTypeCheck(a, opts);
    FieldType(a, opts);
    FieldMultipleInput(a, opts);
  }

  // ---------------------------------------------------------------------------
  // Stages 1 to 6 over the whole parser

  /** Exclusion keeps parser order: the kept actions of a concatenation are the concatenation of the kept actions. */
  lemma {:induction false} KeptActionsAppend(xs: seq<Action>, ys: seq<Action>, opts: Options)
    ensures KeptActions(xs + ys, opts) == KeptActions(xs, opts) + KeptActions(ys, opts)
    decreases |ys|
  {
    if ys == [] {
      assert xs + ys == xs;
    } else {
      var n := |ys| - 1;
      assert (xs + ys)[..|xs + ys| - 1] == xs + ys[..n];
      assert (xs + ys)[|xs + ys| - 1] == ys[n];
      KeptActionsAppend(xs, ys[..n], opts);
    }
  }

  /** Stages 1 to 3 applied to one action. */
  function Prepared(a: Action, opts: Options): Field
  {
    WithMultipleInput(WithNameAndLabel(OptionDict(a), opts.labelOverrides))
  }

  /** After stage 3 the list holds one prepared field per kept action, in order. */
  lemma PreparedFields(parser: Parser, opts: Options)
    ensures var kept := KeptActions(parser.actions, opts);
      var s3 := MultipleAll(NameAll(OptionDicts(parser.actions, opts), opts.labelOverrides));
      |s3| == |kept| && forall k :: 0 <= k < |kept| ==> s3[k] == Prepared(kept[k], opts)
  {
  }

  /** A failure in stage 4 is the failure of one prepared field. */
  lemma {:induction false} ValidateErrPointwise(kept: seq<Action>, s3: seq<Field>, opts: Options)
    requires |s3| == |kept| && forall k :: 0 <= k < |kept| ==> s3[k] == Prepared(kept[k], opts)
    requires ValidateFrom(s3, 0).Err?
    ensures exists k :: 0 <= k < |kept| && FieldOf(kept[k], opts).Err?
  {
    var k :| 0 <= k < |s3| && Validate(s3[k]).Err?;
    assert FieldOf(kept[k], opts).Err?;
  }

  /** A failure in stage 5 is the failure of one validated field. */
  lemma {:induction false} ConvertErrPointwise(kept: seq<Action>, s3: seq<Field>, opts: Options)
    requires |s3| == |kept| && forall k :: 0 <= k < |kept| ==> s3[k] == Prepared(kept[k], opts)
    requires ValidateFrom(s3, 0).Ok?
    requires forall k :: 0 <= k < |s3| ==> IsNamed(ValidateFrom(s3, 0).value[k])
    requires ConvertFrom(ValidateFrom(s3, 0).value, opts.uploadOptions, 0).Err?
    ensures exists k :: 0 <= k < |kept| && FieldOf(kept[k], opts).Err?
  {
    var s4 := ValidateFrom(s3, 0).value;
    var k :| 0 <= k < |s4| && Convert(s4[k], opts.uploadOptions).Err?;
    assert Validate(Prepared(kept[k], opts)) == Ok(s4[k]);
    assert FieldOf(kept[k], opts).Err?;
  }

  /** A staged field list that fails in stage 4 or 5 has an action whose own field fails. */
  lemma StagedErrPointwise(parser: Parser, opts: Options)
    requires StagedFields(parser, opts).Err?
    ensures var kept := KeptActions(parser.actions, opts);
      exists k :: 0 <= k < |kept| && FieldOf(kept[k], opts).Err?
  {
    var kept := KeptActions(parser.actions, opts);
    var s3 := MultipleAll(NameAll(OptionDicts(parser.actions, opts), opts.labelOverrides));
    PreparedFields(parser, opts);
    if ValidateFrom(s3, 0).Err? {
      ValidateErrPointwise(kept, s3, opts);
    } else {
      ConvertErrPointwise(kept, s3, opts);
    }
  }

  /** A staged field list that succeeds holds each kept action's own field. */
  lemma StagedOkPointwise(parser: Parser, opts: Options)
    requires StagedFields(parser, opts).Ok?
    ensures var kept := KeptActions(parser.actions, opts);
      && |StagedFields(parser, opts).value| == |kept|
      && forall k :: 0 <= k < |kept| ==> FieldOf(kept[k], opts) == Ok(StagedFields(parser, opts).value[k])
  {
    var kept := KeptActions(parser.actions, opts);
    var s3 := MultipleAll(NameAll(OptionDicts(parser.actions, opts), opts.labelOverrides));
    PreparedFields(parser, opts);
    var s4 := ValidateFrom(s3, 0).value;
    var s5 := ConvertFrom(s4, opts.uploadOptions, 0).value;
    var s := StagedFields(parser, opts).value;
    assert s == HelpAll(s5, opts.helpOverrides);
    forall k | 0 <= k < |kept|
      ensures FieldOf(kept[k], opts) == Ok(s[k])
    {
      assert Validate(Prepared(kept[k], opts)) == Ok(s4[k]);
      assert Convert(s4[k], opts.uploadOptions) == Ok(s5[k]);
    }
  }

  /** Stages 1 to 6 succeed exactly when every kept action's field builds, and then give those fields in order. */
  lemma StagedFieldsPointwise(parser: Parser, opts: Options)
    ensures var kept := KeptActions(parser.actions, opts);
      StagedFields(parser, opts).Ok? <==> forall k :: 0 <= k < |kept| ==> FieldOf(kept[k], opts).Ok?
    ensures var kept := KeptActions(parser.actions, opts);
      StagedFields(parser, opts).Ok? ==>
        && |StagedFields(parser, opts).value| == |kept|
        && forall k :: 0 <= k < |kept| ==> StagedFields(parser, opts).value[k] == FieldOf(kept[k], opts).value
  {
    if StagedFields(parser, opts).Ok? {
      StagedOkPointwise(parser, opts);
    } else {
      StagedErrPointwise(parser, opts);
    }
  }

  // ---------------------------------------------------------------------------
  // Stage 9: deleting the internal attributes

  /** Deleting a list of keys succeeds exactly when each is present and none is listed twice, and removes just those keys. */
  lemma {:induction false} DeleteKeysOutcome(d: Dict, keys: seq<Attr>)
    ensures DeleteKeys(d, keys).Ok? <==> Distinct(keys) && forall k :: k in keys ==> k in d
    ensures DeleteKeys(d, keys).Ok? ==> DeleteKeys(d, keys).value == d - set k | k in keys
    decreases |keys|
  {
    if keys != [] {
      assert keys[0] in keys;
      if keys[0] in d {
        var rest := keys[1..];
        var d' := d - {keys[0]};
        DeleteKeysOutcome(d', rest);
        assert forall k :: k in keys <==> k == keys[0] || k in rest;
        assert keys == [keys[0]] + rest;
        DistinctCons(keys[0], rest);
        if DeleteKeys(d, keys).Ok? {
          assert (set k | k in keys) == {keys[0]} + set k | k in rest;
          assert d' - (set k | k in rest) == d - set k | k in keys;
        }
      }
    }
  }

  lemma DelAttrsAreDelKeys()
    ensures Distinct(DEL_ATTRS)
    ensures (set k | k in DEL_ATTRS) == DEL_KEYS
    ensures DEL_ATTRS[0] == Container
  {
  }

  /** On one dictionary, stage 9 removes the internal attributes, or fails on the first: `container`. */
  lemma DeleteDelAttrs(d: Dict)
    ensures DEL_KEYS <= d.Keys ==> DeleteKeys(d, DEL_ATTRS) == Ok(Stripped(d))
    ensures Container !in d ==> DeleteKeys(d, DEL_ATTRS) == Err(KeyError("container"))
  {
    DelAttrsAreDelKeys();
    DeleteKeysOutcome(d, DEL_ATTRS);
  }

  /** A dictionary still holding every internal attribute, or one already stripped. */
  predicate FullOrStripped(d: Dict)
  {
    DEL_KEYS <= d.Keys || Container !in d
  }

  /** One step of stage 9: the dictionary `refs[i]` refers to is stripped, or the step fails on `container`. */
  lemma StripStep(s: seq<Dict>, refs: seq<nat>, i: nat)
    requires i < |refs| && ValidRefs(s, refs)
    requires refs[i] < |s| && FullOrStripped(s[refs[i]])
    ensures DEL_KEYS <= s[refs[i]].Keys ==>
      StripFrom(s, refs, i) == StripFrom(s[refs[i] := Stripped(s[refs[i]])], refs, i + 1)
    ensures !(DEL_KEYS <= s[refs[i]].Keys) ==> StripFrom(s, refs, i) == Err(KeyError("container"))
  {
    assert refs[i] in refs;
    DeleteDelAttrs(s[refs[i]]);
  }

  /** Every dictionary the references designate still holds the internal attributes. */
  predicate AllFull(s: seq<Dict>, xs: seq<nat>)
  {
    forall x :: x in xs ==> x < |s| && DEL_KEYS <= s[x].Keys
  }

  /** Every dictionary the references designate holds all the internal attributes or has lost `container`. */
  predicate AllFullOrStripped(s: seq<Dict>, refs: seq<nat>)
  {
    forall x :: x in refs ==> x < |s| && FullOrStripped(s[x])
  }

  /** Stripping one dictionary keeps the invariant, and the stripped one is no longer full. */
  lemma StripOne(s: seq<Dict>, refs: seq<nat>, x: nat, tail: seq<nat>)
    requires x < |s| && AllFullOrStripped(s, refs)
    ensures AllFullOrStripped(s[x := Stripped(s[x])], refs)
    ensures x !in tail ==> (AllFull(s[x := Stripped(s[x])], tail) <==> AllFull(s, tail))
    ensures x in tail ==> !AllFull(s[x := Stripped(s[x])], tail)
  {
    var s' := s[x := Stripped(s[x])];
    assert Container in DEL_KEYS && Container !in s'[x];
    forall y | y in refs ensures y < |s'| && FullOrStripped(s'[y]) {
    }
  }

  lemma AllFullCons(s: seq<Dict>, x: nat, tail: seq<nat>)
    ensures AllFull(s, [x] + tail) <==> x < |s| && DEL_KEYS <= s[x].Keys && AllFull(s, tail)
  {
    assert x in [x] + tail;
    assert forall y :: y in tail ==> y in [x] + tail;
  }

  /**
   * Stripping through a list of references succeeds exactly when no
   * dictionary is referenced twice and every referenced one still holds the
   * internal attributes.
   */
  lemma {:induction false} StripFromSucceeds(s: seq<Dict>, refs: seq<nat>, i: nat)
    requires i <= |refs| && AllFullOrStripped(s, refs)
    ensures ValidRefs(s, refs)
    ensures StripFrom(s, refs, i).Ok? <==> Distinct(refs[i..]) && AllFull(s, refs[i..])
    decreases |refs| - i
  {
    if i < |refs| {
      var x := refs[i];
      assert x in refs;
      var tail := refs[i + 1..];
      assert refs[i..] == [x] + tail;
      StripStep(s, refs, i);
      AllFullCons(s, x, tail);
      DistinctCons(x, tail);
      if DEL_KEYS <= s[x].Keys {
        StripOne(s, refs, x, tail);
        StripFromSucceeds(s[x := Stripped(s[x])], refs, i + 1);
      }
    }
  }

  /** When stripping fails, it fails on the first attribute it deletes: `KeyError('container')`. */
  lemma {:induction false} StripFromError(s: seq<Dict>, refs: seq<nat>, i: nat)
    requires i <= |refs| && AllFullOrStripped(s, refs)
    ensures ValidRefs(s, refs)
    ensures StripFrom(s, refs, i).Err? ==> StripFrom(s, refs, i).error == KeyError("container")
    decreases |refs| - i
  {
    if i < |refs| {
      var x := refs[i];
      assert x in refs;
      StripStep(s, refs, i);
      if DEL_KEYS <= s[x].Keys {
        StripOne(s, refs, x, []);
        StripFromError(s[x := Stripped(s[x])], refs, i + 1);
      }
    }
  }

  /** When stripping succeeds, each referenced dictionary is stripped and every other is unchanged. */
  lemma {:induction false} StripFromValues(s: seq<Dict>, refs: seq<nat>, i: nat)
    requires i <= |refs| && AllFullOrStripped(s, refs)
    requires Distinct(refs[i..]) && AllFull(s, refs[i..])
    ensures ValidRefs(s, refs)
    ensures StripFrom(s, refs, i).Ok?
    ensures forall x :: 0 <= x < |s| ==>
      StripFrom(s, refs, i).value[x] == if x in refs[i..] then Stripped(s[x]) else s[x]
    decreases |refs| - i
  {
    StripFromSucceeds(s, refs, i);
    if i < |refs| {
      var x := refs[i];
      assert x in refs;
      var tail := refs[i + 1..];
      assert refs[i..] == [x] + tail;
      StripStep(s, refs, i);
      AllFullCons(s, x, tail);
      DistinctCons(x, tail);
      var s' := s[x := Stripped(s[x])];
      StripOne(s, refs, x, tail);
      StripFromValues(s', refs, i + 1);
      var t := StripFrom(s', refs, i + 1).value;
      forall y | 0 <= y < |s|
        ensures t[y] == if y in refs[i..] then Stripped(s[y]) else s[y]
      {
        if y == x {
          assert y !in tail;
        } else {
          assert s'[y] == s[y];
        }
      }
    }
  }

  lemma DistinctCons<T>(x: T, tail: seq<T>)
    ensures Distinct([x] + tail) <==> Distinct(tail) && x !in tail
  {
    var s := [x] + tail;
    if Distinct(s) {
      forall a, b | 0 <= a < b < |tail| ensures tail[a] != tail[b] {
        assert tail[a] == s[a + 1] && tail[b] == s[b + 1];
      }
      forall j | 0 <= j < |tail| ensures tail[j] != x {
        assert s[j + 1] == tail[j] && s[0] == x;
      }
    }
    if Distinct(tail) && x !in tail {
      forall a, b | 0 <= a < b < |s| ensures s[a] != s[b] {
        assert s[b] == tail[b - 1];
        if a > 0 {
          assert s[a] == tail[a - 1];
        }
      }
    }
  }

  /** A returned field holds exactly the public keys: the added ones and `choices`, `default`, `help`, `required`, `type`. */
  lemma FinalKeys(f: Field)
    requires Complete(f)
    ensures Stripped(AsDict(f)).Keys == FINAL_KEYS
    ensures DEL_KEYS <= AsDict(f).Keys
    ensures forall k :: k in DEL_ATTRS ==> k !in Stripped(AsDict(f))
  {
  }

  // ---------------------------------------------------------------------------
  // Stages 7 and 8: partition and ordering

  predicate Increasing(refs: seq<nat>)
  {
    forall a, b :: 0 <= a < b < |refs| ==> refs[a] < refs[b]
  }

  lemma DistinctAppend<T>(xs: seq<T>, ys: seq<T>)
    ensures Distinct(xs + ys) <==> Distinct(xs) && Distinct(ys) && forall x :: x in xs ==> x !in ys
  {
    var s := xs + ys;
    if Distinct(s) {
      forall a, b | 0 <= a < b < |xs| ensures xs[a] != xs[b] {
        assert xs[a] == s[a] && xs[b] == s[b];
      }
      forall a, b | 0 <= a < b < |ys| ensures ys[a] != ys[b] {
        assert ys[a] == s[|xs| + a] && ys[b] == s[|xs| + b];
      }
      forall x | x in xs ensures x !in ys {
        var i :| 0 <= i < |xs| && xs[i] == x;
        forall j | 0 <= j < |ys| ensures ys[j] != x {
          assert s[i] == x && s[|xs| + j] == ys[j];
        }
      }
    }
    if Distinct(xs) && Distinct(ys) && forall x :: x in xs ==> x !in ys {
      forall a, b | 0 <= a < b < |s| ensures s[a] != s[b] {
        if b < |xs| {
          assert s[a] == xs[a] && s[b] == xs[b];
        } else if a >= |xs| {
          assert s[a] == ys[a - |xs|] && s[b] == ys[b - |xs|];
        } else {
          assert s[a] == xs[a] && xs[a] in xs && s[b] == ys[b - |xs|] && ys[b - |xs|] in ys;
        }
      }
    }
  }

  /** The partition keeps, in increasing order, exactly the fields whose name is (or is not) among the names. */
  lemma {:induction false} RefsWhereMembers(s: seq<Field>, names: seq<string>, inNames: bool, n: nat)
    requires n <= |s|
    requires forall k :: 0 <= k < |s| ==> IsNamed(s[k])
    ensures forall r: nat :: r in RefsWhere(s, names, inNames, n) <==> r < n && (FieldName(s[r]) in names) == inNames
    ensures Increasing(RefsWhere(s, names, inNames, n))
  {
    if n > 0 {
      RefsWhereMembers(s, names, inNames, n - 1);
      var prev := RefsWhere(s, names, inNames, n - 1);
      var refs := RefsWhere(s, names, inNames, n);
      assert refs == prev + (if (FieldName(s[n - 1]) in names) == inNames then [n - 1] else []);
      forall a, b | 0 <= a < b < |refs| ensures refs[a] < refs[b] {
        if b < |prev| {
          assert refs[a] == prev[a] && refs[b] == prev[b];
        } else {
          assert refs[a] == prev[a] && prev[a] in prev;
        }
      }
    }
  }

  /** The fields matching one name are exactly the listed fields whose dest is that name. */
  lemma {:induction false} MatchingRefsMembers(s: seq<Field>, name: string, refs: seq<nat>)
    requires ValidRefs(s, refs)
    ensures forall x: nat :: x in MatchingRefs(s, name, refs) <==> x in refs && x < |s| && s[x].dest == name
  {
    if refs != [] {
      var n := |refs| - 1;
      assert refs[n] in refs;
      assert forall r :: r in refs[..n] ==> r in refs;
      assert refs == refs[..n] + [refs[n]];
      MatchingRefsMembers(s, name, refs[..n]);
    }
  }

  /** Ordering keeps exactly the listed fields whose dest is among the names. */
  lemma {:induction false} OrderRefsMembers(s: seq<Field>, names: seq<string>, refs: seq<nat>)
    requires ValidRefs(s, refs)
    ensures forall x: nat :: x in OrderRefs(s, names, refs) <==> x in refs && x < |s| && s[x].dest in names
  {
    if names != [] {
      var n := |names| - 1;
      assert names == names[..n] + [names[n]];
      OrderRefsMembers(s, names[..n], refs);
      MatchingRefsMembers(s, names[n], refs);
    }
  }

  /** The fields matching one name keep the order of the list they are taken from. */
  lemma {:induction false} MatchingRefsIncreasing(s: seq<Field>, name: string, refs: seq<nat>)
    requires ValidRefs(s, refs) && Increasing(refs)
    ensures Increasing(MatchingRefs(s, name, refs))
    decreases |refs|
  {
    if refs != [] {
      var n := |refs| - 1;
      assert refs[n] in refs;
      assert forall r :: r in refs[..n] ==> r in refs;
      MatchingRefsIncreasing(s, name, refs[..n]);
      var m := MatchingRefs(s, name, refs[..n]);
      forall r | r in m ensures r < refs[n] {
        var j :| 0 <= j < n && refs[..n][j] == r;
        assert refs[j] == r;
      }
      var r := m + (if s[refs[n]].dest == name then [refs[n]] else []);
      forall a, b | 0 <= a < b < |r| ensures r[a] < r[b] {
        if b < |m| {
          assert r[a] == m[a] && r[b] == m[b];
        } else {
          assert r[a] == m[a] && m[a] in m;
        }
      }
    }
  }

  lemma IncreasingIsDistinct(refs: seq<nat>)
    requires Increasing(refs)
    ensures Distinct(refs)
  {
  }

  /** The ordering of one list over several name lists is the concatenation of the orderings. */
  lemma {:induction false} OrderRefsAppend(s: seq<Field>, xs: seq<string>, ys: seq<string>, refs: seq<nat>)
    requires ValidRefs(s, refs)
    ensures OrderRefs(s, xs + ys, refs) == OrderRefs(s, xs, refs) + OrderRefs(s, ys, refs)
    decreases |ys|
  {
    if ys == [] {
      assert xs + ys == xs;
    } else {
      var n := |ys| - 1;
      var zs := xs + ys;
      var m := |zs| - 1;
      assert zs[..m] == xs + ys[..n];
      assert zs[m] == ys[n];
      calc {
        OrderRefs(s, zs, refs);
        OrderRefs(s, zs[..m], refs) + MatchingRefs(s, zs[m], refs);
        OrderRefs(s, xs + ys[..n], refs) + MatchingRefs(s, ys[n], refs);
        { OrderRefsAppend(s, xs, ys[..n], refs); }
        OrderRefs(s, xs, refs) + OrderRefs(s, ys[..n], refs) + MatchingRefs(s, ys[n], refs);
        OrderRefs(s, xs, refs) + OrderRefs(s, ys, refs);
      }
    }
  }

  /** Ordering by a single name takes the matching fields in list order. */
  lemma OrderRefsSingle(s: seq<Field>, name: string, refs: seq<nat>)
    requires ValidRefs(s, refs)
    ensures OrderRefs(s, [name], refs) == MatchingRefs(s, name, refs)
  {
    assert [name][..0] == [];
  }

  /** Ordering by names that are listed once each picks no field twice. */
  lemma {:induction false} OrderRefsDistinct(s: seq<Field>, names: seq<string>, refs: seq<nat>)
    requires ValidRefs(s, refs) && Increasing(refs) && Distinct(names)
    ensures Distinct(OrderRefs(s, names, refs))
    decreases |names|
  {
    if names != [] {
      var n := |names| - 1;
      assert Distinct(names[..n]);
      OrderRefsDistinct(s, names[..n], refs);
      MatchingRefsIncreasing(s, names[n], refs);
      IncreasingIsDistinct(MatchingRefs(s, names[n], refs));
      assert names[n] !in names[..n];
      OrderRefsMembers(s, names[..n], refs);
      MatchingRefsMembers(s, names[n], refs);
      DistinctAppend(OrderRefs(s, names[..n], refs), MatchingRefs(s, names[n], refs));
    }
  }

  /**
   * Which fields end up in which list: a field is primary when its name is
   * not an advanced option (and, when `option_order` is given, its dest is
   * listed there); it is advanced when its name is an advanced option and its
   * dest is listed in the advanced order.
   */
  lemma Partition(s: seq<Field>, opts: Options, x: nat)
    requires forall k :: 0 <= k < |s| ==> IsNamed(s[k])
    requires x < |s|
    ensures x in PrimaryRefs(s, opts) <==>
      FieldName(s[x]) !in opts.advancedOptions && (|opts.optionOrder| > 0 ==> s[x].dest in opts.optionOrder)
    ensures x in AdvancedRefs(s, opts) <==>
      FieldName(s[x]) in opts.advancedOptions && s[x].dest in OrderedAdvancedOptions(opts)
  {
    var primaryAll := RefsWhere(s, opts.advancedOptions, false, |s|);
    var advancedAll := RefsWhere(s, opts.advancedOptions, true, |s|);
    RefsWhereMembers(s, opts.advancedOptions, false, |s|);
    RefsWhereMembers(s, opts.advancedOptions, true, |s|);
    OrderRefsMembers(s, opts.optionOrder, primaryAll);
    OrderRefsMembers(s, OrderedAdvancedOptions(opts), advancedAll);
  }

  /** Without `option_order` the primary fields keep parser order. */
  lemma PrimaryKeepsParserOrder(s: seq<Field>, opts: Options)
    requires forall k :: 0 <= k < |s| ==> IsNamed(s[k])
    requires opts.optionOrder == []
    ensures Increasing(PrimaryRefs(s, opts))
  {
    RefsWhereMembers(s, opts.advancedOptions, false, |s|);
  }

  /** Names listed at most once in each order never pick a field twice. */
  lemma DistinctOrders(s: seq<Field>, opts: Options)
    requires forall k :: 0 <= k < |s| ==> IsNamed(s[k])
    requires Distinct(opts.optionOrder) && Distinct(OrderedAdvancedOptions(opts))
    ensures Distinct(PrimaryRefs(s, opts) + AdvancedRefs(s, opts))
  {
    var primaryAll := RefsWhere(s, opts.advancedOptions, false, |s|);
    var advancedAll := RefsWhere(s, opts.advancedOptions, true, |s|);
    var p := PrimaryRefs(s, opts);
    var a := AdvancedRefs(s, opts);
    RefsWhereMembers(s, opts.advancedOptions, false, |s|);
    RefsWhereMembers(s, opts.advancedOptions, true, |s|);
    OrderRefsDistinct(s, OrderedAdvancedOptions(opts), advancedAll);
    if |opts.optionOrder| > 0 {
      OrderRefsDistinct(s, opts.optionOrder, primaryAll);
    } else {
      IncreasingIsDistinct(primaryAll);
    }
    forall x | x in p ensures x !in a {
      Partition(s, opts, x);
    }
    DistinctAppend(p, a);
  }

  // ---------------------------------------------------------------------------
  // Stages 7 to 9 together

  /** Every dictionary of the staged fields starts out holding the internal attributes. */
  lemma DictsFull(s: seq<Field>, refs: seq<nat>)
    requires forall k :: 0 <= k < |s| ==> Complete(s[k])
    requires ValidRefs(s, refs)
    ensures AllFullOrStripped(AsDicts(s), refs) && AllFull(AsDicts(s), refs)
  {
    var d := AsDicts(s);
    forall x | 0 <= x < |d| ensures DEL_KEYS <= d[x].Keys {
      FinalKeys(s[x]);
    }
  }

  /** Stages 7 to 9 succeed exactly when no field is listed twice across the two lists, and otherwise fail on `container`. */
  lemma ArrangeSucceeds(s: seq<Field>, opts: Options)
    requires forall k :: 0 <= k < |s| ==> IsNamed(s[k]) && Complete(s[k])
    ensures Arrange(s, opts).Ok? <==> Distinct(PrimaryRefs(s, opts) + AdvancedRefs(s, opts))
    ensures Arrange(s, opts).Err? ==> Arrange(s, opts).error == KeyError("container")
  {
    var refs := PrimaryRefs(s, opts) + AdvancedRefs(s, opts);
    DictsFull(s, refs);
    assert refs[0..] == refs;
    StripFromSucceeds(AsDicts(s), refs, 0);
    StripFromError(AsDicts(s), refs, 0);
  }

  /** When stages 7 to 9 succeed, each list holds the stripped dictionaries of the fields it refers to. */
  lemma ArrangeValues(s: seq<Field>, opts: Options)
    requires forall k :: 0 <= k < |s| ==> IsNamed(s[k]) && Complete(s[k])
    requires Arrange(s, opts).Ok?
    ensures var primary := PrimaryRefs(s, opts);
      var advanced := AdvancedRefs(s, opts);
      && |Arrange(s, opts).value.0| == |primary|
      && |Arrange(s, opts).value.1| == |advanced|
      && (forall k :: 0 <= k < |primary| ==> Arrange(s, opts).value.0[k] == Stripped(AsDict(s[primary[k]])))
      && (forall k :: 0 <= k < |advanced| ==> Arrange(s, opts).value.1[k] == Stripped(AsDict(s[advanced[k]])))
  {
    var primary := PrimaryRefs(s, opts);
    var advanced := AdvancedRefs(s, opts);
    var refs := primary + advanced;
    var d := AsDicts(s);
    ArrangeSucceeds(s, opts);
    DictsFull(s, refs);
    assert refs[0..] == refs;
    StripFromValues(d, refs, 0);
    var t := StripFrom(d, refs, 0).value;
    assert Arrange(s, opts).value == (Deref(t, primary), Deref(t, advanced));
    forall k | 0 <= k < |primary| ensures t[primary[k]] == Stripped(AsDict(s[primary[k]])) {
      assert primary[k] in refs;
    }
    forall k | 0 <= k < |advanced| ensures t[advanced[k]] == Stripped(AsDict(s[advanced[k]])) {
      assert advanced[k] in refs;
    }
  }

  // ---------------------------------------------------------------------------
  // The whole builder

  /**
   * With a title, the build fails in stages 1 to 6 exactly when some kept
   * action's field fails; otherwise it fails exactly when a field is listed
   * twice, with `KeyError('container')`, and succeeds with the stripped
   * fields the two ordered lists refer to.
   */
  lemma BuildOutcome(parser: Parser, opts: Options)
    requires Title(parser, opts) != ""
    ensures StagedFields(parser, opts).Err? ==> BuildSpec(parser, opts) == Err(StagedFields(parser, opts).error)
    ensures StagedFields(parser, opts).Ok? ==>
      var s := StagedFields(parser, opts).value;
      var primary := PrimaryRefs(s, opts);
      var advanced := AdvancedRefs(s, opts);
      && (BuildSpec(parser, opts).Ok? <==> Distinct(primary + advanced))
      && (BuildSpec(parser, opts).Err? ==> BuildSpec(parser, opts).error == KeyError("container"))
      && (BuildSpec(parser, opts).Ok? ==>
           && |BuildSpec(parser, opts).value.fields| == |primary|
           && |BuildSpec(parser, opts).value.advancedFields| == |advanced|
           && (forall k :: 0 <= k < |primary| ==>
                BuildSpec(parser, opts).value.fields[k] == Stripped(AsDict(s[primary[k]])))
           && (forall k :: 0 <= k < |advanced| ==>
                BuildSpec(parser, opts).value.advancedFields[k] == Stripped(AsDict(s[advanced[k]]))))
  {
    if StagedFields(parser, opts).Ok? {
      var s := StagedFields(parser, opts).value;
      ArrangeSucceeds(s, opts);
      if Arrange(s, opts).Ok? {
        ArrangeValues(s, opts);
      }
    }
  }

  /** Stripped fields hold exactly the public keys. */
  lemma StrippedKeys(s: seq<Field>, refs: seq<nat>, out: seq<Dict>)
    requires forall k :: 0 <= k < |s| ==> Complete(s[k])
    requires |out| == |refs| && forall k :: 0 <= k < |refs| ==> refs[k] < |s| && out[k] == Stripped(AsDict(s[refs[k]]))
    ensures forall d :: d in out ==> d.Keys == FINAL_KEYS
  {
    forall d | d in out ensures d.Keys == FINAL_KEYS {
      var k :| 0 <= k < |out| && out[k] == d;
      FinalKeys(s[refs[k]]);
    }
  }

  /**
   * With a title, fields that all build, and each order naming a dest at most
   * once, the build succeeds, and every returned field holds exactly the
   * public keys.
   */
  lemma BuildSucceeds(parser: Parser, opts: Options)
    requires Title(parser, opts) != ""
    requires forall a :: a in KeptActions(parser.actions, opts) ==> FieldOf(a, opts).Ok?
    requires Distinct(opts.optionOrder) && Distinct(OrderedAdvancedOptions(opts))
    ensures BuildSpec(parser, opts).Ok?
    ensures forall d :: d in BuildSpec(parser, opts).value.fields ==> d.Keys == FINAL_KEYS
    ensures forall d :: d in BuildSpec(parser, opts).value.advancedFields ==> d.Keys == FINAL_KEYS
  {
    StagedFieldsPointwise(parser, opts);
    var s := StagedFields(parser, opts).value;
    DistinctOrders(s, opts);
    BuildOutcome(parser, opts);
    var spec := BuildSpec(parser, opts).value;
    StrippedKeys(s, PrimaryRefs(s, opts), spec.fields);
    StrippedKeys(s, AdvancedRefs(s, opts), spec.advancedFields);
  }

  /** A name listed twice that matches a field picks that field twice. */
  lemma OrderRefsRepeat(s: seq<Field>, names: seq<string>, refs: seq<nat>, i: nat, j: nat, x: nat)
    requires ValidRefs(s, refs)
    requires i < j < |names| && names[i] == names[j]
    requires x in refs && x < |s| && s[x].dest == names[i]
    ensures !Distinct(OrderRefs(s, names, refs))
  {
    var xs := names[..i + 1];
    var ys := names[i + 1..];
    assert names == xs + ys;
    assert xs[i] == names[i] && ys[j - i - 1] == names[j];
    OrderRefsAppend(s, xs, ys, refs);
    OrderRefsMembers(s, xs, refs);
    OrderRefsMembers(s, ys, refs);
    DistinctAppend(OrderRefs(s, xs, refs), OrderRefs(s, ys, refs));
  }

  /**
   * Listing in `option_order` twice a dest that a primary field has makes
   * the build fail: the field is listed twice, so its second deletion raises
   * `KeyError('container')`.
   */
  lemma DuplicateOrderFails(parser: Parser, opts: Options, i: nat, j: nat, x: nat)
    requires Title(parser, opts) != "" && StagedFields(parser, opts).Ok?
    requires i < j < |opts.optionOrder| && opts.optionOrder[i] == opts.optionOrder[j]
    requires var s := StagedFields(parser, opts).value;
      x < |s| && s[x].dest == opts.optionOrder[i] && FieldName(s[x]) !in opts.advancedOptions
    ensures BuildSpec(parser, opts) == Err(KeyError("container"))
  {
    var s := StagedFields(parser, opts).value;
    var all := RefsWhere(s, opts.advancedOptions, false, |s|);
    RefsWhereMembers(s, opts.advancedOptions, false, |s|);
    OrderRefsRepeat(s, opts.optionOrder, all, i, j, x);
    DistinctAppend(PrimaryRefs(s, opts), AdvancedRefs(s, opts));
    BuildOutcome(parser, opts);
  }

  /** The same for the advanced order and an advanced field. */
  lemma DuplicateAdvancedOrderFails(parser: Parser, opts: Options, i: nat, j: nat, x: nat)
    requires Title(parser, opts) != "" && StagedFields(parser, opts).Ok?
    requires var names := OrderedAdvancedOptions(opts);
      i < j < |names| && names[i] == names[j]
    requires var s := StagedFields(parser, opts).value;
      x < |s| && s[x].dest == OrderedAdvancedOptions(opts)[i] && FieldName(s[x]) in opts.advancedOptions
    ensures BuildSpec(parser, opts) == Err(KeyError("container"))
  {
    var s := StagedFields(parser, opts).value;
    var all := RefsWhere(s, opts.advancedOptions, true, |s|);
    RefsWhereMembers(s, opts.advancedOptions, true, |s|);
    OrderRefsRepeat(s, OrderedAdvancedOptions(opts), all, i, j, x);
    DistinctAppend(PrimaryRefs(s, opts), AdvancedRefs(s, opts));
    BuildOutcome(parser, opts);
  }

  // ---------------------------------------------------------------------------
  // Keys

  /** Distinct attributes are distinct dictionary keys. */
  lemma AttrNameInjective(a: Attr, b: Attr)
    requires AttrName(a) == AttrName(b)
    ensures a == b
  {
  }

  /** The deleted attributes are config.py's `DEL_ATTRS`, in its order. */
  lemma DelAttrsMatchConfig()
    ensures |DEL_ATTRS| == |Config.DEL_ATTRS|
    ensures forall k :: 0 <= k < |DEL_ATTRS| ==> AttrName(DEL_ATTRS[k]) == Config.DEL_ATTRS[k]
  {
  }
}
