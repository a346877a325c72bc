/**
 * An explicit description of the argparse options a parser declares, in place
 * of reflecting over `parser._actions`. Each action records the attributes
 * argparse's `Action` objects expose, and its class name, which is what the
 * form builder compares against its lookup tables.
 */
module Argparse {
  import opened Wrappers
  import opened Python

  // The class names argparse gives the actions that `add_argument` creates.
  const STORE: string := "_StoreAction"
  const STORE_CONST: string := "_StoreConstAction"
  const STORE_TRUE: string := "_StoreTrueAction"
  const STORE_FALSE: string := "_StoreFalseAction"
  const APPEND: string := "_AppendAction"
  const APPEND_CONST: string := "_AppendConstAction"
  const COUNT: string := "_CountAction"
  const HELP: string := "_HelpAction"
  const VERSION: string := "_VersionAction"

  /** An action's `nargs`: `None`, an int (argparse sets 0 on flag actions) or a pattern such as `'+'`. */
  datatype Nargs = Unset | Fixed(n: int) | Pattern(p: string)

  function NargsValue(n: Nargs): (v: Value)
    ensures Truthy(v) <==> (n.Fixed? && n.n != 0) || (n.Pattern? && n.p != "")
    ensures v.Int? <==> n.Fixed?
  {
    match n
    case Unset => PyNone
    case Fixed(k) => Int(k)
    case Pattern(p) => Str(p)
  }

  function OptionalStr(o: Option<string>): (v: Value)
    ensures v.PyNone? || v.Str?
    ensures Truthy(v) <==> o.Some? && o.value != ""
  {
    match o
    case None => PyNone
    case Some(s) => Str(s)
  }

  function TypeValue(t: Option<PyCallable>): (v: Value)
    ensures Truthy(v) <==> t.Some?
  {
    match t
    case None => PyNone
    case Some(c) => TypeObj(c)
  }

  /**
   * One argparse action. `cliType` is the class name (`STORE`, `COUNT`, ...,
   * or the name of any other Action subclass); `container` identifies the
   * parser or argument group the action was added to.
   */
  datatype Action = Action(
    cliType: string,
    container: string,
    optionStrings: seq<string>,
    dest: string,
    nargs: Nargs,
    constValue: Value,
    default: Value,
    declaredType: Option<PyCallable>,
    choices: Value,
    required: bool,
    help: Option<string>,
    metavar: Option<string>)

  /** The parser attributes the form builder reads: `prog`, `description` and `_actions`. */
  datatype Parser = Parser(prog: Option<string>, description: Option<string>, actions: seq<Action>)
}
