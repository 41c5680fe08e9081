/**
 * Values produced by Python's json module, and the Python operations the price code applies to
 * them: subscripting, `in`, len(), float(), iteration and multiplication, each with the exception it
 * raises when applied to a value of the wrong shape.
 */
module PyJson {
  import opened Runtime
  import OrderedDict
  import Numbers
  import Text

  /** A decoded JSON value; an object keeps its (key, value) pairs as written. */
  datatype Json =
    | JNull
    | JBool(b: bool)
    | JNum(n: real)
    | JStr(s: string)
    | JArr(items: seq<Json>)
    | JObj(fields: seq<(string, Json)>)

  /** One step of a subscript chain: value[key] or value[index]. */
  datatype Step = Key(key: string) | At(index: nat)

  /** value[key] with a string key: only a dict has keys; a missing key raises KeyError. */
  function Subscript(v: Json, key: string): (r: Result<Json>)
    ensures r.Ok? <==> v.JObj? && key in OrderedDict.Keys(v.fields)
    ensures r.Ok? ==> OrderedDict.Lookup(v.fields, key) == Some(r.value)
  {
    match v
    case JObj(fields) =>
      (match OrderedDict.Lookup(fields, key)
       case Some(x) => Ok(x)
       case None => Raise(KeyError))
    case _ => Raise(TypeError)
  }

  /**
   * value[i] with a non-negative integer index: a list gives its element, a string its one-character
   * substring; a dict decoded from JSON has only string keys, so it raises KeyError.
   */
  function Index(v: Json, i: nat): (r: Result<Json>)
    ensures r.Ok? <==> (v.JArr? && i < |v.items|) || (v.JStr? && i < |v.s|)
    ensures v.JArr? && i < |v.items| ==> r == Ok(v.items[i])
    ensures v.JStr? && i < |v.s| ==> r == Ok(JStr([v.s[i]]))
    ensures r.Raise? ==> r.error == (if v.JObj? then KeyError else if v.JArr? || v.JStr? then IndexError else TypeError)
  {
    match v
    case JArr(items) => if i < |items| then Ok(items[i]) else Raise(IndexError)
    case JStr(s) => if i < |s| then Ok(JStr([s[i]])) else Raise(IndexError)
    case JObj(_) => Raise(KeyError)
    case _ => Raise(TypeError)
  }

  /** A chain of subscripts, such as data['data'][0]['last'], evaluated left to right. */
  function Walk(v: Json, path: seq<Step>): Result<Json>
    decreases |path|
  {
    if path == [] then Ok(v)
    else
      var next :- match path[0] case Key(k) => Subscript(v, k) case At(i) => Index(v, i);
      Walk(next, path[1..])
  }

  /** `needle in v`: key membership for a dict, element equality for a list, substring for a string. */
  function Contains(v: Json, needle: string): Result<bool>
  {
    match v
    case JObj(fields) => Ok(needle in OrderedDict.Keys(fields))
    case JArr(items) => Ok(JStr(needle) in items)
    case JStr(s) => Ok(Text.Occurs(needle, s))
    case _ => Raise(TypeError)
  }

  /** len(v); a dict counts its distinct keys. */
  function Len(v: Json): Result<nat>
  {
    match v
    case JArr(items) => Ok(|items|)
    case JStr(s) => Ok(|s|)
    case JObj(fields) => Ok(|OrderedDict.FromPairs(fields)|)
    case _ => Raise(TypeError)
  }

  /** list(v.keys()): only a dict has .keys(). */
  function KeyList(v: Json): Result<seq<string>>
  {
    match v
    case JObj(fields) =>
      var d := OrderedDict.FromPairs(fields);
      Ok(seq(|d|, i requires 0 <= i < |d| => d[i].0))
    case _ => Raise(AttributeError)
  }

  /** float(v): numbers and booleans convert, a string is parsed, anything else raises. */
  function Float(v: Json): Result<real>
  {
    match v
    case JNum(n) => Ok(n)
    case JBool(b) => Ok(if b then 1.0 else 0.0)
    case JStr(s) =>
      (match Numbers.ParseFloat(s)
       case Some(x) => Ok(x)
       case None => Raise(ValueError))
    case _ => Raise(TypeError)
  }

  /** The numeric value of a number or boolean (bool is an int subclass in Python). */
  function Number(v: Json): Option<real>
  {
    match v
    case JNum(n) => Some(n)
    case JBool(b) => Some(if b then 1.0 else 0.0)
    case _ => None
  }

  /** a * b for two numeric values. */
  function Multiply(a: Json, b: Json): (r: Result<Json>)
    ensures r.Ok? <==> Number(a).Some? && Number(b).Some?
    ensures r.Ok? ==> r.value == JNum(Number(a).value * Number(b).value)
  {
    if Number(a).Some? && Number(b).Some? then Ok(JNum(Number(a).value * Number(b).value))
    else Raise(TypeError)
  }

  /** `for x in v`: a list gives its items, a string its characters, a dict its distinct keys. */
  function Iterate(v: Json): Result<seq<Json>>
  {
    match v
    case JArr(items) => Ok(items)
    case JStr(s) => Ok(seq(|s|, i requires 0 <= i < |s| => JStr([s[i]])))
    case JObj(_) =>
      var keys :- KeyList(v);
      Ok(seq(|keys|, i requires 0 <= i < |keys| => JStr(keys[i])))
    case _ => Raise(TypeError)
  }

  /** A Python list of strings, as the config stores the token list. */
  function StringList(xs: seq<string>): (r: Json)
    ensures r.JArr? && |r.items| == |xs| && forall i :: 0 <= i < |xs| ==> r.items[i] == JStr(xs[i])
  {
    JArr(seq(|xs|, i requires 0 <= i < |xs| => JStr(xs[i])))
  }
}
