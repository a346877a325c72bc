/** The lookup tables of argparse_to_web/config.py. */
module Config {
  import opened Wrappers
  import Argparse

  /** Keys deleted from every field before the form specification is returned. */
  const DEL_ATTRS: seq<string> :=
    ["container", "option_strings", "const", "dest", "metavar", "cli_type", "nargs"]

  /** Action classes that never become form fields. */
  const EXCLUDE_ACTIONS: seq<string> := ["_HelpAction", "_VersionAction"]

  /** Action classes whose fields always accept several values. */
  const MULTIPLE_INPUT_TYPES: seq<string> := ["_AppendAction", "_AppendConstAction"]

  /** Web-form input type for an option that declares no type, by action class. */
  const TYPE_CONVERSIONS: map<string, string> := map[
    "_AppendAction" := "text",
    "_StoreAction" := "text",
    "_CountAction" := "text",
    "_StoreTrueAction" := "checkbox",
    "_StoreConstAction" := "checkbox",
    "_StoreFalseAction" := "checkbox",
    "_AppendConstAction" := "checkbox"]

  /** `cli_type in EXCLUDE_ACTIONS`: exactly the help and version actions. */
  function IsExcluded(cliType: string): (r: bool)
    ensures r <==> cliType == Argparse.HELP || cliType == Argparse.VERSION
  {
    cliType in EXCLUDE_ACTIONS
  }

  /** `cli_type in MULTIPLE_INPUT_TYPES`: exactly the append and append-const actions. */
  function IsMultipleInputType(cliType: string): (r: bool)
    ensures r <==> cliType == Argparse.APPEND || cliType == Argparse.APPEND_CONST
  {
    cliType in MULTIPLE_INPUT_TYPES
  }

  /**
   * `TYPE_CONVERSIONS[cli_type]`, `None` standing for the KeyError of a class
   * that has no entry: exactly the seven classes below have one.
   */
  function Fallback(cliType: string): (r: Option<string>)
    ensures r == Some("text") <==>
      cliType in {Argparse.APPEND, Argparse.STORE, Argparse.COUNT}
    ensures r == Some("checkbox") <==>
      cliType in {Argparse.STORE_TRUE, Argparse.STORE_CONST, Argparse.STORE_FALSE, Argparse.APPEND_CONST}
    ensures r.Some? ==> r == Some("text") || r == Some("checkbox")
  {
    if cliType in TYPE_CONVERSIONS then Some(TYPE_CONVERSIONS[cliType]) else None
  }

  /** Help and version actions, which the builder excludes, have no fallback type. */
  lemma ExcludedHaveNoFallback(cliType: string)
    requires IsExcluded(cliType)
    ensures Fallback(cliType).None?
  {
  }
}
