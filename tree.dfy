/**
 * The parsed bureau document as the mapper receives it: the object tree an
 * XML-to-object converter builds when it collapses an element that occurs once
 * to a scalar. An element with children or attributes is an object, a repeated
 * element an array, a text-only element its text (an empty element is "").
 * A missing element is simply absent: lookups return `None`.
 */
module ParsedTree {
  import opened Wrappers

  datatype Node = Obj(fields: map<string, Node>) | Arr(items: seq<Node>) | Text(text: string)

  /** `v?.key`: the field of a present object, absent for anything else. */
  function Get(v: Option<Node>, key: string): Option<Node>
  {
    if v.Some? && v.value.Obj? && key in v.value.fields then Some(v.value.fields[key]) else None
  }

  /** `v?.k1?.k2?. ...`: a chain of optional lookups. */
  function Path(v: Option<Node>, keys: seq<string>): (r: Option<Node>)
    ensures v.None? ==> r == if keys == [] then v else None
    decreases |keys|
  {
    if keys == [] then v else Path(Get(v, keys[0]), keys[1..])
  }

  /** JavaScript truthiness: absent and the empty string are falsy; objects and arrays, even empty ones, are truthy. */
  predicate Truthy(v: Option<Node>) {
    match v
    case None => false
    case Some(Text(s)) => s != ""
    case Some(_) => true
  }

  /** `v || d`. */
  function Or(v: Option<Node>, d: Node): (r: Node)
    ensures Truthy(v) ==> Some(r) == v
    ensures !Truthy(v) ==> r == d
  {
    if Truthy(v) then v.value else d
  }

  /** `String(n)`: text is itself, an object "[object Object]", an array the comma-join of its elements. */
  function JsString(n: Node): string
  {
    match n
    case Text(s) => s
    case Obj(_) => "[object Object]"
    case Arr(xs) => JoinComma(xs)
  }

  function JoinComma(xs: seq<Node>): string
    decreases xs
  {
    if |xs| == 0 then ""
    else if |xs| == 1 then JsString(xs[0])
    else JsString(xs[0]) + "," + JoinComma(xs[1..])
  }

  /** The String cast of the stored report: text passes, an object or an array is refused. */
  function AsString(n: Node): (r: Option<string>)
    ensures r.Some? <==> n.Text?
  {
    if n.Text? then Some(n.text) else None
  }

  /** A string field of the report: `v || ""`, then cast to a string. */
  function TextField(v: Option<Node>): (r: Option<string>)
    ensures !Truthy(v) ==> r == Some("")
    ensures r.Some? <==> v.None? || v.value.Text?
    ensures v.Some? && v.value.Text? ==> r == Some(v.value.text)
  {
    AsString(Or(v, Text("")))
  }
}
