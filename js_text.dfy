/** The handful of JavaScript value behaviours the nodes depend on: JSON values, template
    literals over possibly-undefined strings, `||` on strings, and `String.prototype.includes`. */
module JsText {
  import opened Wrappers

  /** The contents of a Node.js `Buffer`. */
  type Bytes = seq<bv8>

  /** A JSON value as it is sent to or received from the orchestrator. Objects are maps: no
      behaviour modelled here depends on the order of an object's keys. */
  datatype Json =
    | JNull
    | JBool(b: bool)
    | JNum(n: int)
    | JStr(s: string)
    | JArr(elems: seq<Json>)
    | JObj(fields: map<string, Json>)

  /** The text a template literal `${x}` produces for a string that may be undefined. */
  function Interpolate(x: Option<string>): string
  {
    match x
    case Some(s) => s
    case None => "undefined"
  }

  /** `x || fallback` for a string that may be undefined: the empty string is falsy as well. */
  function OrElse(x: Option<string>, fallback: string): string
  {
    if x.Some? && x.value != "" then x.value else fallback
  }

  /** `sub` occurs in `s` starting at index `i`. */
  predicate OccursAt(s: string, sub: string, i: nat)
  {
    i + |sub| <= |s| && s[i..i + |sub|] == sub
  }

  /** `s.includes(sub)`. */
  predicate Includes(s: string, sub: string)
  {
    exists i: nat :: i <= |s| && OccursAt(s, sub, i)
  }

  /** A string cannot contain a text one of whose characters it lacks. */
  lemma NotIncludes(s: string, sub: string, j: nat)
    requires j < |sub| && sub[j] !in s
    ensures !Includes(s, sub)
  {
  }
}
