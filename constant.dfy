/** The constants of package `constant` that the modelled code uses, and the
    access kinds a security rule can name. */
module Constant {

  const DefaultPageSize: int := 10
  const DefaultPage: int := 1
  const DefaultPageSort: string := "created_at desc"
  const DefaultEnv: string := "PROD"

  /** The five access kinds a rule may carry, each with its configured
      string, and every other string a configuration file may hold. */
  datatype SecurityAccess =
    | HasPermission
    | HasRole
    | PermitAll
    | DenyAll
    | Custom
    | Unrecognised(text: string)
  {
    /** The string this access kind is written as in configuration. */
    function Value(): string {
      match this
      case HasPermission => "HasPermission"
      case HasRole => "HasRole"
      case PermitAll => "PermitAll"
      case DenyAll => "DenyAll"
      case Custom => "Custom"
      case Unrecognised(t) => t
    }

    /** No two kinds share a string, except an `Unrecognised` value that
        spells a known one, which `ParseAccess` never produces. */
    predicate Canonical() {
      Unrecognised? ==> text !in KnownAccessValues
    }
  }

  const KnownAccessValues: set<string> := {"HasPermission", "HasRole", "PermitAll", "DenyAll", "Custom"}

  /** Classifies the `access` string of a rule the way the chain of `==`
      comparisons against the five constants does. */
  function ParseAccess(s: string): (a: SecurityAccess)
    ensures a.Value() == s
    ensures a.Canonical()
    ensures a.Unrecognised? <==> s !in KnownAccessValues
  {
    if s == "HasPermission" then HasPermission
    else if s == "HasRole" then HasRole
    else if s == "PermitAll" then PermitAll
    else if s == "DenyAll" then DenyAll
    else if s == "Custom" then Custom
    else Unrecognised(s)
  }

  /** Parsing a canonical kind's string gives the kind back, so comparing
      strings and comparing kinds decide the same thing. */
  lemma ParseValue(a: SecurityAccess)
    requires a.Canonical()
    ensures ParseAccess(a.Value()) == a
  {
  }
}
