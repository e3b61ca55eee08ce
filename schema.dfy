/** The request-body validation both user-facing forms use: each field is checked in the
    order the schema declares it, every failing check adds one issue, and the reply carries
    the message of the first issue. */
module Schema {
  import opened Wrappers

  /** A body field as the schema sees it: missing, a string, or a value of another JSON type,
      named as the schema library names it ("number", "null", "boolean", "object", "array"). */
  datatype Field = Absent | Text(s: string) | Other(received: string)

  const RequiredMessage := "Required"

  /** The issue of a body that is not an object. */
  function ObjectIssue(received: string): string {
    "Expected object, received " + received
  }

  /** The text of a string field, and the empty string for any other. */
  function TextOf(f: Field): string {
    if f.Text? then f.s else ""
  }

  /** The issues of a `z.string()` field, given the issues its checks find in `TextOf(f)`:
      a type issue when it is missing or not a string, otherwise the checks' issues. An
      optional field that is missing has none. */
  function StringFieldIssues(f: Field, optional: bool, checks: seq<string>): (issues: seq<string>)
    ensures issues == [] <==> (f.Absent? && optional) || (f.Text? && checks == [])
    ensures f.Absent? && !optional ==> issues == [RequiredMessage]
    ensures f.Other? ==> issues == ["Expected string, received " + f.received]
  {
    match f
    case Absent => if optional then [] else [RequiredMessage]
    case Other(t) => ["Expected string, received " + t]
    case Text(_) => checks
  }

  /** The value of an optional string field. */
  function OptionalText(f: Field): Option<string> {
    if f.Text? then Some(f.s) else None
  }
}
