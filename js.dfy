/**
 * The slice of JavaScript value semantics the generator relies on:
 * the values that appear in the option catalog, the saved configuration
 * and the collected answers; truthiness; the `a || b` operator; property
 * access on a plain object; and string interpolation in template literals.
 */
module Js {

  datatype Option<+T> = None | Some(value: T)

  /** A JSON-like value as stored in the configuration or given as an answer.
      `Strs` is an array of strings (the answer of a multi-select prompt). */
  datatype Value =
    | Undefined
    | Null
    | Bool(b: bool)
    | Str(s: string)
    | Strs(items: seq<string>)

  /** A plain object: the saved configuration, or the answers collected so far. */
  type Object = map<string, Value>

  /** JavaScript truthiness: `undefined`, `null`, `false` and `""` are falsy;
      every array, even an empty one, is truthy. */
  predicate Truthy(v: Value)
  {
    match v
    case Undefined => false
    case Null => false
    case Bool(b) => b
    case Str(s) => s != ""
    case Strs(_) => true
  }

  /** `a || b`: the first operand when it is truthy, otherwise the second. */
  function Or(a: Value, b: Value): (r: Value)
    ensures Truthy(r) <==> Truthy(a) || Truthy(b)
    ensures r == a || r == b
  {
    if Truthy(a) then a else b
  }

  /** `o[k]` on a plain object: `undefined` when the key is absent. */
  function Get(o: Object, k: string): (r: Value)
    ensures k !in o ==> r == Undefined
    ensures k in o ==> r == o[k]
  {
    if k in o then o[k] else Undefined
  }

  /** `xs.join(sep)` on an array of strings. */
  function Join(xs: seq<string>, sep: string): string
  {
    if |xs| == 0 then ""
    else if |xs| == 1 then xs[0]
    else xs[0] + sep + Join(xs[1..], sep)
  }

  /** `${v}` inside a template literal. */
  function ToText(v: Value): string
  {
    match v
    case Undefined => "undefined"
    case Null => "null"
    case Bool(b) => if b then "true" else "false"
    case Str(s) => s
    case Strs(xs) => Join(xs, ",")
  }
}
