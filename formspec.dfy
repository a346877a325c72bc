/**
 * The form-spec builder (`ArgparseToWeb.create_webform_spec`) as functions:
 * each stage of the builder is a function on fields, and `BuildSpec`
 * composes them in the builder's order. The staged loops that compute the
 * same result in place are in module Builder.
 *
 * Until the last stage every field carries the twelve entries it got from
 * its action, so a field is a record (`Field`) whose later entries are
 * optional; the last stage deletes entries, so it works on dictionaries
 * (`Dict`) keyed by `Attr`.
 *
 * The builder's lists of fields hold references to dictionaries that are
 * later mutated; references are modelled as indices into the list of all
 * fields (the store), so that a dictionary listed twice is updated once and
 * seen twice, as in Python.
 */
module FormSpec {
  import opened Wrappers
  import opened Python
  import opened Argparse
  import Config

  /** The keys a field dictionary can hold: the action's public attributes and the keys the builder adds. */
  datatype Attr =
    | CliType | Choices | Const | Container | Default | Dest | Help | Metavar | Nargs
    | OptionStrings | Required | Type
    | Name | Label | MultipleInput | MultipleInputHasLimit | MultipleInputLimit | ValidationType

  /** The dictionary key each attribute stands for. */
  function AttrName(k: Attr): string
  {
    match k
    case CliType => "cli_type"
    case Choices => "choices"
    case Const => "const"
    case Container => "container"
    case Default => "default"
    case Dest => "dest"
    case Help => "help"
    case Metavar => "metavar"
    case Nargs => "nargs"
    case OptionStrings => "option_strings"
    case Required => "required"
    case Type => "type"
    case Name => "name"
    case Label => "label"
    case MultipleInput => "multiple_input"
    case MultipleInputHasLimit => "multiple_input_has_limit"
    case MultipleInputLimit => "multiple_input_limit"
    case ValidationType => "validation_type"
  }

  /** A field dictionary, key by key. */
  type Dict = map<Attr, Value>

  /**
   * A field dictionary from stage 1 to stage 8: the class name and the
   * action's attributes, then the entries the stages add (`None` until the
   * stage that adds them has run).
   */
  datatype Field = Field(
    cliType: string,
    choices: Value,
    constValue: Value,
    container: Value,
    default: Value,
    dest: string,
    help: Value,
    metavar: Option<string>,
    nargs: Value,
    optionStrings: Value,
    required: Value,
    typeValue: Value,
    name: Option<string>,
    labelText: Option<string>,
    multipleInput: Option<bool>,
    multipleInputHasLimit: Option<bool>,
    multipleInputLimit: Option<Value>,
    validationType: Option<Value>)

  /** The builder's keyword arguments. `''`, `None` and an empty list or dict are all "not given". */
  datatype Options = Options(
    title: string,
    subtitle: string,
    uploadOptions: seq<string>,
    ignoreOptions: seq<string>,
    advancedOptions: seq<string>,
    optionOrder: seq<string>,
    advancedOptionOrder: seq<string>,
    helpOverrides: map<string, string>,
    labelOverrides: map<string, string>)

  /** The exceptions the builder raises. */
  datatype BuildError =
    | NoTitle                                              // ValueError(NO_TITLE_ERR_MSG)
    | CountTypeMismatch(dest: string, declaredType: Value) // TypeError(COUNT_TYPE_ERR_MSG)
    | KeyError(key: string)                                // lookup or `del` of a missing key

  /** The returned `{title, subtitle, fields, advanced_fields}` dictionary. */
  datatype WebformSpec = WebformSpec(
    title: string, subtitle: string, fields: seq<Dict>, advancedFields: seq<Dict>)

  /** The keys of a freshly generated option dictionary: `cli_type` and the action's public attributes. */
  const OPTION_KEYS: set<Attr> := {
    CliType, Choices, Const, Container, Default, Dest, Help, Metavar, Nargs,
    OptionStrings, Required, Type}

  /** The keys the builder adds to each field. */
  const ADDED_KEYS: set<Attr> := {
    Name, Label, MultipleInput, MultipleInputHasLimit, MultipleInputLimit, ValidationType}

  /** The keys of a returned field. */
  const FINAL_KEYS: set<Attr> := {
    Choices, Default, Help, Required, Type, Name, Label,
    MultipleInput, MultipleInputHasLimit, MultipleInputLimit, ValidationType}

  // ---------------------------------------------------------------------------
  // Title and subtitle

  function Title(parser: Parser, opts: Options): string
  {
    if opts.title != "" then opts.title
    else if parser.prog.Some? && parser.prog.value != "" then parser.prog.value
    else ""
  }

  function Subtitle(parser: Parser, opts: Options): string
  {
    if opts.subtitle != "" then opts.subtitle
    else if parser.description.Some? && parser.description.value != "" then parser.description.value
    else ""
  }

  // ---------------------------------------------------------------------------
  // Stage 1: one dictionary per action that is neither excluded nor ignored

  predicate Kept(a: Action, opts: Options)
  {
    !Config.IsExcluded(a.cliType) && a.dest !in opts.ignoreOptions
  }

  /** The option dictionary of one action: its class name and its public attributes. */
  function OptionDict(a: Action): Field
  {
    Field(
      a.cliType, a.choices, a.constValue, Object(a.container), a.default, a.dest,
      OptionalStr(a.help), a.metavar, NargsValue(a.nargs), StrList(a.optionStrings),
      Bool(a.required), TypeValue(a.declaredType),
      None, None, None, None, None, None)
  }

  function KeptActions(actions: seq<Action>, opts: Options): (kept: seq<Action>)
    ensures |kept| <= |actions|
    ensures forall a :: a in kept <==> a in actions && Kept(a, opts)
  {
    if actions == [] then []
    else
      var n := |actions| - 1;
      KeptActions(actions[..n], opts) + (if Kept(actions[n], opts) then [actions[n]] else [])
  }

  function OptionDicts(actions: seq<Action>, opts: Options): (s: seq<Field>)
  {
    var kept := KeptActions(actions, opts);
    seq(|kept|, k requires 0 <= k < |kept| => OptionDict(kept[k]))
  }

  // ---------------------------------------------------------------------------
  // Stage 2: name and label

  predicate IsNamed(f: Field)
  {
    f.name.Some?
  }

  /** Every entry the stages add is present. */
  predicate Complete(f: Field)
  {
    && f.name.Some? && f.labelText.Some? && f.multipleInput.Some?
    && f.multipleInputHasLimit.Some? && f.multipleInputLimit.Some? && f.validationType.Some?
  }

  function FieldName(f: Field): string
    requires IsNamed(f)
  {
    f.name.value
  }

  /** `metavar` if set, else `dest`, lower-cased. */
  function NameOf(f: Field): string
  {
    Lower(if f.metavar.Some? && f.metavar.value != "" then f.metavar.value else f.dest)
  }

  function WithNameAndLabel(f: Field, labelOverrides: map<string, string>): (r: Field)
    ensures IsNamed(r) && r.labelText.Some?
    ensures r == f.(name := r.name, labelText := r.labelText)
  {
    var name := NameOf(f);
    var display :=
      if |labelOverrides| > 0 && f.dest in labelOverrides then labelOverrides[f.dest]
      else Capitalize(ReplaceChar(name, '_', ' '));
    f.(name := Some(name), labelText := Some(display))
  }

  function NameAll(s: seq<Field>, labelOverrides: map<string, string>): (r: seq<Field>)
    ensures |r| == |s|
    ensures forall k :: 0 <= k < |r| ==> r[k] == WithNameAndLabel(s[k], labelOverrides) && IsNamed(r[k])
  {
    seq(|s|, k requires 0 <= k < |s| => WithNameAndLabel(s[k], labelOverrides))
  }

  // ---------------------------------------------------------------------------
  // Stage 3: multiple input

  function WithMultipleInput(f: Field): (r: Field)
    ensures r.multipleInput.Some? && r.multipleInputHasLimit.Some? && r.multipleInputLimit.Some?
    ensures r == f.(multipleInput := r.multipleInput, multipleInputHasLimit := r.multipleInputHasLimit,
                    multipleInputLimit := r.multipleInputLimit)
  {
    f.(multipleInput := Some(Config.IsMultipleInputType(f.cliType) || Truthy(f.nargs)),
       multipleInputHasLimit := Some(false),
       multipleInputLimit := Some(if Truthy(f.nargs) && f.nargs.Int? then f.nargs else PyNone))
  }

  function MultipleAll(s: seq<Field>): (r: seq<Field>)
    ensures |r| == |s|
    ensures forall k :: 0 <= k < |r| ==> r[k] == WithMultipleInput(s[k])
  {
    seq(|s|, k requires 0 <= k < |s| => WithMultipleInput(s[k]))
  }

  // ---------------------------------------------------------------------------
  // Stage 4: validation type and the count check

  /** A count action may declare no type or `int`; anything else is a TypeError. */
  function Validate(f: Field): (r: Result<Field, BuildError>)
    ensures r.Ok? ==> r.value == f.(typeValue := r.value.typeValue, validationType := Some(f.typeValue))
    ensures r.Err? ==> r.error.CountTypeMismatch?
  {
    var g := f.(validationType := Some(f.typeValue));
    if f.cliType == COUNT then
      if Truthy(f.typeValue) && f.typeValue != TypeObj(IntClass) then Err(CountTypeMismatch(f.dest, f.typeValue))
      else Ok(g.(typeValue := Str("int")))
    else Ok(g)
  }

  function ValidateFrom(s: seq<Field>, i: nat): (r: Result<seq<Field>, BuildError>)
    requires i <= |s|
    ensures r.Ok? ==> |r.value| == |s|
    ensures r.Ok? ==> forall k :: 0 <= k < i ==> r.value[k] == s[k]
    ensures r.Ok? ==> forall k :: i <= k < |s| ==> Validate(s[k]) == Ok(r.value[k])
    ensures r.Err? <==> exists k :: i <= k < |s| && Validate(s[k]).Err?
    ensures r.Err? ==> r.error.CountTypeMismatch?
    decreases |s| - i
  {
    if i == |s| then Ok(s)
    else match Validate(s[i])
      case Err(e) => Err(e)
      case Ok(f) => ValidateFrom(s[i := f], i + 1)
  }

  // ---------------------------------------------------------------------------
  // Stage 5: web-form input type

  /** `'file'` for `open` or an upload option, else the type if set, else the class's fallback. */
  function Convert(f: Field, uploadOptions: seq<string>): (r: Result<Field, BuildError>)
    requires IsNamed(f)
    ensures r.Ok? ==> r.value == f.(typeValue := r.value.typeValue)
    ensures r.Err? ==> r.error == KeyError(f.cliType)
  {
    var t := if f.typeValue == TypeObj(OpenFunction) || f.name.value in uploadOptions then Str("file") else f.typeValue;
    if Truthy(t) then Ok(f.(typeValue := t))
    else match Config.Fallback(f.cliType)
      case Some(w) => Ok(f.(typeValue := Str(w)))
      case None => Err(KeyError(f.cliType))
  }

  function ConvertFrom(s: seq<Field>, uploadOptions: seq<string>, i: nat): (r: Result<seq<Field>, BuildError>)
    requires i <= |s|
    requires forall k :: 0 <= k < |s| ==> IsNamed(s[k])
    ensures r.Ok? ==> |r.value| == |s|
    ensures r.Ok? ==> forall k :: 0 <= k < i ==> r.value[k] == s[k]
    ensures r.Ok? ==> forall k :: i <= k < |s| ==> Convert(s[k], uploadOptions) == Ok(r.value[k])
    ensures r.Err? <==> exists k :: i <= k < |s| && Convert(s[k], uploadOptions).Err?
    ensures r.Err? ==> r.error.KeyError?
    decreases |s| - i
  {
    if i == |s| then Ok(s)
    else match Convert(s[i], uploadOptions)
      case Err(e) => Err(e)
      case Ok(f) => ConvertFrom(s[i := f], uploadOptions, i + 1)
  }

  // ---------------------------------------------------------------------------
  // Stage 6: help overrides, keyed by the field's name

  function WithHelpOverride(f: Field, helpOverrides: map<string, string>): (r: Field)
    requires IsNamed(f)
    ensures IsNamed(r) && (Complete(f) ==> Complete(r))
    ensures r == f.(help := r.help)
  {
    if |helpOverrides| > 0 && f.name.value in helpOverrides then f.(help := Str(helpOverrides[f.name.value]))
    else f
  }

  function HelpAll(s: seq<Field>, helpOverrides: map<string, string>): (r: seq<Field>)
    requires forall k :: 0 <= k < |s| ==> IsNamed(s[k])
    ensures |r| == |s|
    ensures forall k :: 0 <= k < |r| ==> r[k] == WithHelpOverride(s[k], helpOverrides) && IsNamed(r[k])
    ensures forall k :: 0 <= k < |r| ==> Complete(s[k]) ==> Complete(r[k])
  {
    seq(|s|, k requires 0 <= k < |s| => WithHelpOverride(s[k], helpOverrides))
  }

  /** Stages 1 to 6: every kept action's field, in parser order. */
  function StagedFields(parser: Parser, opts: Options): (r: Result<seq<Field>, BuildError>)
    ensures r.Ok? ==> forall k :: 0 <= k < |r.value| ==> IsNamed(r.value[k]) && Complete(r.value[k])
    ensures r.Err? ==> r.error.CountTypeMismatch? || r.error.KeyError?
  {
    var s3 := MultipleAll(NameAll(OptionDicts(parser.actions, opts), opts.labelOverrides));
    match ValidateFrom(s3, 0)
    case Err(e) => Err(e)
    case Ok(s4) =>
      match ConvertFrom(s4, opts.uploadOptions, 0)
      case Err(e) => Err(e)
      case Ok(s5) =>
        Ok(HelpAll(s5, opts.helpOverrides))
  }

  /** The same stages applied to a single action. */
  function FieldOf(a: Action, opts: Options): (r: Result<Field, BuildError>)
    ensures r.Ok? ==> IsNamed(r.value) && Complete(r.value)
  {
    var f := WithMultipleInput(WithNameAndLabel(OptionDict(a), opts.labelOverrides));
    match Validate(f)
    case Err(e) => Err(e)
    case Ok(g) =>
      match Convert(g, opts.uploadOptions)
      case Err(e) => Err(e)
      case Ok(h) => Ok(WithHelpOverride(h, opts.helpOverrides))
  }

  // ---------------------------------------------------------------------------
  // Stage 7: advanced / primary partition, keyed by name

  predicate ValidRefs<T>(s: seq<T>, refs: seq<nat>)
  {
    forall r :: r in refs ==> r < |s|
  }

  /** Indices below `n` whose field's name is (`inNames`) or is not (`!inNames`) in `names`, in order. */
  function RefsWhere(s: seq<Field>, names: seq<string>, inNames: bool, n: nat): (refs: seq<nat>)
    requires n <= |s|
    requires forall k :: 0 <= k < |s| ==> IsNamed(s[k])
    ensures forall r :: r in refs ==> r < n
  {
    if n == 0 then []
    else
      RefsWhere(s, names, inNames, n - 1) +
        (if (FieldName(s[n - 1]) in names) == inNames then [n - 1] else [])
  }

  // ---------------------------------------------------------------------------
  // Stage 8: ordering, keyed by dest; unlisted fields are dropped

  /** The referenced fields whose dest equals `name`, in list order. */
  function MatchingRefs(s: seq<Field>, name: string, refs: seq<nat>): (r: seq<nat>)
    requires ValidRefs(s, refs)
    ensures forall x :: x in r ==> x in refs
  {
    if refs == [] then []
    else
      var n := |refs| - 1;
      assert refs[n] in refs;
      assert forall r :: r in refs[..n] ==> r in refs;
      MatchingRefs(s, name, refs[..n]) + (if s[refs[n]].dest == name then [refs[n]] else [])
  }

  /** For each listed name in turn, every referenced field whose dest equals it. */
  function OrderRefs(s: seq<Field>, names: seq<string>, refs: seq<nat>): (r: seq<nat>)
    requires ValidRefs(s, refs)
    ensures ValidRefs(s, r)
  {
    if names == [] then []
    else
      var n := |names| - 1;
      OrderRefs(s, names[..n], refs) + MatchingRefs(s, names[n], refs)
  }

  /** `advanced_option_order`, else `advanced_options`, else `[]`. */
  function OrderedAdvancedOptions(opts: Options): seq<string>
  {
    if |opts.advancedOptionOrder| > 0 then opts.advancedOptionOrder
    else if |opts.advancedOptions| > 0 then opts.advancedOptions
    else []
  }

  /** The primary list after ordering: reordered only when `option_order` is given. */
  function PrimaryRefs(s: seq<Field>, opts: Options): (refs: seq<nat>)
    requires forall k :: 0 <= k < |s| ==> IsNamed(s[k])
    ensures ValidRefs(s, refs)
  {
    var primary := RefsWhere(s, opts.advancedOptions, false, |s|);
    if |opts.optionOrder| > 0 then OrderRefs(s, opts.optionOrder, primary) else primary
  }

  /** The advanced list after ordering. */
  function AdvancedRefs(s: seq<Field>, opts: Options): (refs: seq<nat>)
    requires forall k :: 0 <= k < |s| ==> IsNamed(s[k])
    ensures ValidRefs(s, refs)
  {
    OrderRefs(s, OrderedAdvancedOptions(opts), RefsWhere(s, opts.advancedOptions, true, |s|))
  }

  // ---------------------------------------------------------------------------
  // Stage 9: deleting the internal attributes

  /** The entries of a field that has been through stages 2 to 6, as a dictionary. */
  function AsDict(f: Field): Dict
    requires Complete(f)
  {
    map[
      CliType := Str(f.cliType), Choices := f.choices, Const := f.constValue,
      Container := f.container, Default := f.default, Dest := Str(f.dest), Help := f.help,
      Metavar := OptionalStr(f.metavar), Nargs := f.nargs, OptionStrings := f.optionStrings,
      Required := f.required, Type := f.typeValue,
      Name := Str(f.name.value), Label := Str(f.labelText.value),
      MultipleInput := Bool(f.multipleInput.value),
      MultipleInputHasLimit := Bool(f.multipleInputHasLimit.value),
      MultipleInputLimit := f.multipleInputLimit.value,
      ValidationType := f.validationType.value]
  }

  function AsDicts(s: seq<Field>): (r: seq<Dict>)
    requires forall k :: 0 <= k < |s| ==> Complete(s[k])
    ensures |r| == |s| && forall k :: 0 <= k < |s| ==> r[k] == AsDict(s[k])
  {
    seq(|s|, k requires 0 <= k < |s| => AsDict(s[k]))
  }

  /** `DEL_ATTRS`, the attributes a returned field does not carry, in the table's order. */
  const DEL_ATTRS: seq<Attr> := [Container, OptionStrings, Const, Dest, Metavar, CliType, Nargs]

  /** The same attributes as a set. */
  const DEL_KEYS: set<Attr> := {Container, OptionStrings, Const, Dest, Metavar, CliType, Nargs}

  /** A dictionary with the internal attributes removed. */
  function Stripped(d: Dict): Dict
  {
    d - DEL_KEYS
  }

  /** No element is listed twice. */
  predicate Distinct<T(==)>(s: seq<T>)
  {
    forall a, b :: 0 <= a < b < |s| ==> s[a] != s[b]
  }

  /** `for key in keys: del d[key]`. */
  function DeleteKeys(d: Dict, keys: seq<Attr>): (r: Result<Dict, BuildError>)
    ensures r.Err? ==> r.error.KeyError?
  {
    if keys == [] then Ok(d)
    else if keys[0] !in d then Err(KeyError(AttrName(keys[0])))
    else DeleteKeys(d - {keys[0]}, keys[1..])
  }

  /** Delete `DEL_ATTRS` from the dictionaries `refs[i..]` refer to, in list order. */
  function StripFrom(s: seq<Dict>, refs: seq<nat>, i: nat): (r: Result<seq<Dict>, BuildError>)
    requires i <= |refs| && ValidRefs(s, refs)
    ensures r.Ok? ==> |r.value| == |s|
    ensures r.Err? ==> r.error.KeyError?
    decreases |refs| - i
  {
    if i == |refs| then Ok(s)
    else
      assert refs[i] in refs;
      match DeleteKeys(s[refs[i]], DEL_ATTRS)
      case Err(e) => Err(e)
      case Ok(g) => StripFrom(s[refs[i] := g], refs, i + 1)
  }

  /** The dictionaries a list of references designates. */
  function Deref<T>(s: seq<T>, refs: seq<nat>): (r: seq<T>)
    requires ValidRefs(s, refs)
    ensures |r| == |refs| && forall k :: 0 <= k < |refs| ==> refs[k] < |s| && r[k] == s[refs[k]]
  {
    assert forall k :: 0 <= k < |refs| ==> refs[k] in refs;
    seq(|refs|, k requires 0 <= k < |refs| => s[refs[k]])
  }

  // ---------------------------------------------------------------------------
  // The whole builder

  /** Stages 7 to 9 over the staged fields. */
  function Arrange(s: seq<Field>, opts: Options): (r: Result<(seq<Dict>, seq<Dict>), BuildError>)
    requires forall k :: 0 <= k < |s| ==> IsNamed(s[k]) && Complete(s[k])
    ensures r.Err? ==> r.error.KeyError?
  {
    var primary := PrimaryRefs(s, opts);
    var advanced := AdvancedRefs(s, opts);
    var d := AsDicts(s);
    assert ValidRefs(d, primary + advanced);
    match StripFrom(d, primary + advanced, 0)
    case Err(e) => Err(e)
    case Ok(t) => Ok((Deref(t, primary), Deref(t, advanced)))
  }

  function BuildSpec(parser: Parser, opts: Options): (r: Result<WebformSpec, BuildError>)
    ensures r == Err(NoTitle) <==> Title(parser, opts) == ""
    ensures r.Ok? ==> r.value.title == Title(parser, opts) && r.value.subtitle == Subtitle(parser, opts)
  {
    var title := Title(parser, opts);
    if title == "" then Err(NoTitle)
    else match StagedFields(parser, opts)
      case Err(e) => Err(e)
      case Ok(s) =>
        match Arrange(s, opts)
        case Err(e) => Err(e)
        case Ok((fields, advanced)) => Ok(WebformSpec(title, Subtitle(parser, opts), fields, advanced))
  }
}
