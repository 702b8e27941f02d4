/**
 * The slice of JavaScript values that the release workflow of bin/main.js
 * inspects: configuration fields, manifest fields and plain objects whose
 * own properties map names to strings (dependency maps).
 */
module JsValues {

  datatype Option<T> = None | Some(value: T)

  /** No property name occurs twice: a JavaScript object has unique own keys. */
  predicate Keyed(props: seq<(string, string)>)
  {
    props == [] || (props[0].0 !in Names(props[1..]) && Keyed(props[1..]))
  }

  /**
   * The own enumerable properties of a plain object whose values are
   * strings, in the order `Object.entries` lists them (insertion order).
   */
  type Props = props: seq<(string, string)> | Keyed(props) witness []

  /** A JSON value as `JSON.parse` produces it (numbers restricted to integers). */
  datatype Json =
    | Undefined
    | Null
    | Bool(b: bool)
    | Number(n: int)
    | Str(s: string)
    | Object(props: Props)

  /** JavaScript truthiness, as used by `if (x)` and `x || y`. */
  predicate Truthy(v: Json)
  {
    match v
    case Undefined => false
    case Null => false
    case Bool(b) => b
    case Number(n) => n != 0
    case Str(s) => s != []
    case Object(_) => true
  }

  /** `typeof v === 'object'`: true for objects and, as in JavaScript, for null. */
  predicate IsObjectType(v: Json)
  {
    v.Object? || v.Null?
  }

  /** The set of property names of an object. */
  function Names(props: seq<(string, string)>): set<string>
  {
    if props == [] then {} else {props[0].0} + Names(props[1..])
  }

  /** `obj[name]` for an object, or None when the property is absent. */
  function Lookup(props: seq<(string, string)>, name: string): (r: Option<string>)
    ensures r.Some? <==> name in Names(props)
  {
    if props == [] then None
    else if props[0].0 == name then Some(props[0].1)
    else Lookup(props[1..], name)
  }

  /** In an object, the value found for a property's name is that property's value. */
  lemma {:induction false} LookupAt(props: Props, k: nat)
    requires k < |props|
    ensures Lookup(props, props[k].0) == Some(props[k].1)
  {
    if k > 0 {
      var rest: Props := props[1..];
      assert rest[k - 1] == props[k];
      NameAt(rest, k - 1);
      LookupAt(rest, k - 1);
    }
  }

  /** Every property's name is among the object's names. */
  lemma {:induction false} NameAt(props: seq<(string, string)>, k: nat)
    requires k < |props|
    ensures props[k].0 in Names(props)
  {
    if k > 0 {
      NameAt(props[1..], k - 1);
    }
  }
}
