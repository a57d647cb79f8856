/**
 * The loosely shaped JSON values the sketch reads (what p5's loadJSON
 * returns), with the three JavaScript operations the readers apply to them:
 * truthiness, property access and for...of iteration.
 */
module JsonValue {

  import opened Wrappers

  /**
   * Undefined is what reading an absent property gives. Object fields are
   * listed in the engine's enumeration order; a key is read from its first
   * field.
   */
  datatype Json =
    | Undefined
    | Null
    | Bool(b: bool)
    | Num(n: real)
    | Str(s: string)
    | Arr(items: seq<Json>)
    | Obj(fields: seq<(string, Json)>)

  /** JavaScript truthiness (NaN is not modelled, so a number is falsy only when it is 0). */
  predicate Truthy(v: Json)
  {
    match v
    case Undefined | Null => false
    case Bool(b) => b
    case Num(n) => n != 0.0
    case Str(s) => s != ""
    case Arr(_) | Obj(_) => true
  }

  /** `v || d`. */
  function Or(v: Json, d: Json): (r: Json)
    ensures Truthy(r) <==> Truthy(v) || Truthy(d)
  {
    if Truthy(v) then v else d
  }

  /** Reading a property of null or undefined throws a TypeError. */
  predicate Dereferenceable(v: Json)
  {
    !v.Undefined? && !v.Null?
  }

  function Lookup(fields: seq<(string, Json)>, key: string): Json
  {
    if fields == [] then Undefined
    else if fields[0].0 == key then fields[0].1
    else Lookup(fields[1..], key)
  }

  /** `v[key]` for a key that names no own property of a non-object (the keys the readers use). */
  function Member(v: Json, key: string): Json
    requires Dereferenceable(v)
  {
    if v.Obj? then Lookup(v.fields, key) else Undefined
  }

  /**
   * The values `for (x of v)` visits: an array's elements, a string's
   * characters; None where the value is not iterable and the loop throws.
   */
  function Iterate(v: Json): (r: Option<seq<Json>>)
    ensures r.Some? <==> v.Arr? || v.Str?
    ensures v.Str? ==> |r.value| == |v.s| && forall i :: 0 <= i < |v.s| ==> r.value[i] == Str([v.s[i]])
  {
    match v
    case Arr(items) => Some(items)
    case Str(s) => Some(seq(|s|, i requires 0 <= i < |s| => Str([s[i]])))
    case _ => None
  }
}
